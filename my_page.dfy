/** The profile page's tabs: which message list is shown and when the page
    reports loading. */
module MyPage {
  import opened Wrappers
  import opened Js

  const Sent := "sent"
  const Received := "received"
  const Badges := "badges"

  /** `getMessages`: the list fetched for the active tab (`list || []`);
      the badge tab and every unknown tab show no messages. */
  function Messages(tab: string, sentMessages: Option<Json>, receivedMessages: Option<Json>): (r: Json)
    ensures Truthy(Some(r))
    ensures tab != Sent && tab != Received ==> r == JArr([])
  {
    var chosen := if tab == Sent then sentMessages else if tab == Received then receivedMessages else None;
    FirstTruthy([chosen], Some(JArr([]))).value
  }

  /** The list for the sent and received tabs is the fetched one whenever that
      is truthy, and the empty list when it is missing or falsy. */
  lemma MessagesOfOwnTab(sentMessages: Option<Json>, receivedMessages: Option<Json>)
    ensures Messages(Sent, sentMessages, receivedMessages) ==
      (if Truthy(sentMessages) then sentMessages.value else JArr([]))
    ensures Messages(Received, sentMessages, receivedMessages) ==
      (if Truthy(receivedMessages) then receivedMessages.value else JArr([]))
  {
  }

  /** `isLoading`. */
  predicate IsLoading(tab: string, sentLoading: bool, receivedLoading: bool) {
    (tab == Sent && sentLoading) || (tab == Received && receivedLoading)
  }

  /** Only the active tab's own loading flag counts, and the badge tab never loads. */
  lemma LoadingOnlyOwnTab(tab: string, sentLoading: bool, receivedLoading: bool)
    ensures IsLoading(tab, sentLoading, receivedLoading) <==>
      (if tab == Sent then sentLoading else if tab == Received then receivedLoading else false)
    ensures !IsLoading(Badges, sentLoading, receivedLoading)
  {
  }

  /** The page's one piece of state. */
  class Page {
    var activeTab: string

    constructor ()
      ensures activeTab == Received
    {
      activeTab := Received;
    }

    /** `handleTabChange`. */
    method TabChange(tabId: string)
      modifies this
      ensures activeTab == tabId
    {
      activeTab := tabId;
    }
  }
}
