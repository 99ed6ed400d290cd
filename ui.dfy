/** What a screen's event handler asks of the code around it: a callback to
    the parent component, a navigation or a blocking alert. */
module Ui {
  import opened Js

  datatype Effect =
    | Update(patch: Obj)      // `onUpdate(patch)`: fields for the parent's draft
    | Report(value: string)   // `onChange(value)`
    | Advance                 // `onNext()`
    | Navigate(path: string)  // `navigate(path)`
    | NavigateBack            // `navigate(-1)`
    | Alert(text: string)     // `alert(text)`
}
