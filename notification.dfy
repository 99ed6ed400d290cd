/** The pending-member notifications: the per-row guard that keeps a second
    approve or reject from starting while one is in flight. */
module Notification {
  import opened Wrappers
  import opened Text
  import opened Js

  /** `${clubId}-${userId}`, the key of one request row. */
  function Key(notification: Obj): string {
    ToStr(Field(notification, "clubId")) + "-" + ToStr(Field(notification, "userId"))
  }

  function Row(clubId: nat, userId: nat): Obj {
    map["clubId" := JNum(clubId), "userId" := JNum(userId)]
  }

  /** With numeric ids, as the backend sends them, the key determines the
      row's club and user. */
  lemma {:induction false} KeyDeterminesIds(c1: nat, u1: nat, c2: nat, u2: nat)
    ensures Key(Row(c1, u1)) == Key(Row(c2, u2)) <==> c1 == c2 && u1 == u2
  {
    var k1, k2 := Key(Row(c1, u1)), Key(Row(c2, u2));
    KeyOfRow(c1, u1);
    KeyOfRow(c2, u2);
    if k1 == k2 {
      DigitsPrefixCancel(c1, c2, "-" + NatToString(u1), "-" + NatToString(u2));
      PrefixCancel("-", NatToString(u1), NatToString(u2));
      NatToStringInjective(u1, u2);
    }
  }

  lemma KeyOfRow(c: nat, u: nat)
    ensures Key(Row(c, u)) == NatToString(c) + ("-" + NatToString(u))
  {
    assert Key(Row(c, u)) == ToStr(Some(JNum(c))) + "-" + ToStr(Some(JNum(u)));
  }

  /** String ids that contain '-' can share a key. */
  lemma StringIdsCanCollide()
    ensures Key(map["clubId" := JStr("1-2"), "userId" := JStr("3")])
         == Key(map["clubId" := JStr("1"), "userId" := JStr("2-3")])
  {
  }

  datatype Action = Approve | Reject

  /** The request a click starts. */
  datatype Request = Request(action: Action, clubId: Option<Json>, userId: Option<Json>)

  const UnknownError := "알 수 없는 오류"

  /** The prefix of the alert a failed request shows. */
  function AlertPrefix(action: Action): string {
    if action == Approve then "멤버 승인에 실패했습니다: " else "멤버 거절에 실패했습니다: "
  }

  /** The alert shown when a request fails. */
  function FailureAlert(action: Action, e: JsError): string {
    AlertPrefix(action) + ErrorText(e, UnknownError)
  }

  /** The alert tells the action and the error text apart: two alerts are
      equal exactly when both the actions and the error texts are, and every
      alert ends with its error text (the server's message, the error's own,
      or the fallback). */
  lemma {:induction false} FailureAlertNamesActionAndError(a1: Action, e1: JsError, a2: Action, e2: JsError)
    ensures FailureAlert(a1, e1) == FailureAlert(a2, e2) <==>
      a1 == a2 && ErrorText(e1, UnknownError) == ErrorText(e2, UnknownError)
    ensures var r, t := FailureAlert(a1, e1), ErrorText(e1, UnknownError);
      |r| >= |t| && r[|r| - |t|..] == t
  {
    var p1, p2 := AlertPrefix(a1), AlertPrefix(a2);
    var t1, t2 := ErrorText(e1, UnknownError), ErrorText(e2, UnknownError);
    assert (p1 + t1)[|p1|..] == t1;
    if p1 + t1 == p2 + t2 {
      assert |p1| == |p2|;
      assert p1[3] == (p1 + t1)[3] == (p2 + t2)[3] == p2[3];
      assert a1 == a2;
      PrefixCancel(p1, t1, t2);
    }
  }

  class Inbox {
    /** `processingIds`. */
    var processing: set<string>
    /** The alerts shown, oldest first. */
    var alerts: seq<string>
    /** How many times the list was fetched again. */
    var refetches: nat

    constructor ()
      ensures processing == {} && alerts == [] && refetches == 0
    {
      processing := {};
      alerts := [];
      refetches := 0;
    }

    /** A row's buttons are disabled exactly while its key is in flight. */
    predicate RowDisabled(notification: Obj)
      reads this
    {
      Key(notification) in processing
    }

    /** The first half of `handleAccept` / `handleReject`: a row already in
        flight starts nothing; otherwise its key is added and its request
        starts. */
    method Begin(notification: Obj, action: Action) returns (request: Option<Request>)
      modifies this
      ensures old(Key(notification) in processing) ==> request == None && processing == old(processing)
      ensures !old(Key(notification) in processing) ==>
        (request == Some(Request(action, Field(notification, "clubId"), Field(notification, "userId")))
         && processing == old(processing) + {Key(notification)})
      ensures alerts == old(alerts) && refetches == old(refetches)
    {
      var k := Key(notification);
      if k in processing {
        return None;
      }
      processing := processing + {k};
      request := Some(Request(action, Field(notification, "clubId"), Field(notification, "userId")));
    }

    /** The second half: a success fetches the list again, a failure (of the
        request or of the refetch) shows an alert, and in every case the
        row's key is removed. */
    method Finish(notification: Obj, action: Action, outcome: Result<Json, JsError>, refetchError: Option<JsError>)
      modifies this
      ensures processing == old(processing) - {Key(notification)}
      ensures outcome.Success? ==>
        (refetches == old(refetches) + 1
         && alerts == old(alerts) + (if refetchError.Some? then [FailureAlert(action, refetchError.value)] else []))
      ensures outcome.Failure? ==> refetches == old(refetches) && alerts == old(alerts) + [FailureAlert(action, outcome.error)]
    {
      match outcome {
        case Success(_) =>
          refetches := refetches + 1;
          if refetchError.Some? {
            alerts := alerts + [FailureAlert(action, refetchError.value)];
          }
        case Failure(e) =>
          alerts := alerts + [FailureAlert(action, e)];
      }
      processing := processing - {Key(notification)};
    }
  }

  /** One click on a row that was not in flight, followed by its completion:
      the request starts, the in-flight set ends as it began, and the only
      change to the alerts is at most one appended at the end. */
  method BeginThenFinish(inbox: Inbox, notification: Obj, action: Action,
                         outcome: Result<Json, JsError>, refetchError: Option<JsError>)
    returns (request: Option<Request>)
    requires Key(notification) !in inbox.processing
    modifies inbox
    ensures request == Some(Request(action, Field(notification, "clubId"), Field(notification, "userId")))
    ensures inbox.processing == old(inbox.processing)
    ensures !inbox.RowDisabled(notification)
    ensures |inbox.alerts| <= old(|inbox.alerts|) + 1 && old(inbox.alerts) <= inbox.alerts
    ensures outcome.Failure? ==> inbox.alerts == old(inbox.alerts) + [FailureAlert(action, outcome.error)]
  {
    request := inbox.Begin(notification, action);
    inbox.Finish(notification, action, outcome, refetchError);
  }
}
