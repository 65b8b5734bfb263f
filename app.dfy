/** What a customer is shown of a package's history: its milestones only, each change of status
    once. The scan is defined for any set of visible statuses; the customer sees `Milestones`. */
module App {
  import opened Common
  import Seqs
  import Tracking

  /** The statuses a customer is shown. */
  const Milestones: set<string> := {"Shipment Created", "In Transit - Sorting", "Out for Delivery", "Delivered"}

  /** The visible events of `events` that a scan keeps when the status it kept last is `last`: a
      visible event is kept when its status differs from the status kept before it. */
  function Kept(events: seq<Tracking.Event>, visible: set<string>, last: Option<string>): (r: seq<Tracking.Event>)
    ensures |r| <= |events|
  {
    if events == [] then []
    else if events[0].status !in visible then Kept(events[1..], visible, last)
    else if last != Some(events[0].status) then [events[0]] + Kept(events[1..], visible, Some(events[0].status))
    else Kept(events[1..], visible, last)
  }

  /** The customer's view: the kept milestones or, when there is none, the last event alone. */
  function CustomerView(events: seq<Tracking.Event>, visible: set<string>): seq<Tracking.Event>
  {
    var merged := Kept(events, visible, None);
    if merged == [] && events != [] then [events[|events| - 1]] else merged
  }

  /** `merge_customer_events(events)`. */
  method MergeCustomerEvents(events: seq<Tracking.Event>) returns (merged: seq<Tracking.Event>)
    ensures merged == CustomerView(events, Milestones)
  {
    var visible := Milestones;
    merged := [];
    var lastStatus: Option<string> := None;
    for i := 0 to |events|
      invariant merged + Kept(events[i..], visible, lastStatus) == Kept(events, visible, None)
    {
      var e := events[i];
      assert events[i..][0] == e && events[i..][1..] == events[i + 1..];
      if e.status !in visible {
        continue;
      }
      if Some(e.status) != lastStatus {
        merged := merged + [e];
        lastStatus := Some(e.status);
      }
    }
    assert events[|events|..] == [];
    if merged == [] && events != [] {
      merged := [events[|events| - 1]];
    }
  }

  /** Every event of `r` has a status in `visible`. */
  predicate AllVisible(r: seq<Tracking.Event>, visible: set<string>)
  {
    forall k :: 0 <= k < |r| ==> r[k].status in visible
  }

  /** Every kept event is visible, and the kept events keep their order in `events`. */
  lemma {:induction false} KeptVisible(events: seq<Tracking.Event>, visible: set<string>, last: Option<string>)
    ensures AllVisible(Kept(events, visible, last), visible)
    ensures Seqs.IsSubsequence(Kept(events, visible, last), events)
  {
    if events != [] {
      var e := events[0];
      var r := Kept(events, visible, last);
      if e.status in visible && last != Some(e.status) {
        KeptVisible(events[1..], visible, Some(e.status));
        assert r[1..] == Kept(events[1..], visible, Some(e.status));
      } else {
        KeptVisible(events[1..], visible, last);
        assert r == Kept(events[1..], visible, last);
        Seqs.SubsequenceOfTail(r, events);
      }
    }
  }

  /** No two neighbours share a status, and the first differs from the status kept before. */
  lemma {:induction false} KeptHasNoRepeats(events: seq<Tracking.Event>, visible: set<string>, last: Option<string>)
    ensures var r := Kept(events, visible, last); r != [] ==> last != Some(r[0].status)
    ensures var r := Kept(events, visible, last); forall k :: 0 <= k < |r| - 1 ==> r[k].status != r[k + 1].status
  {
    if events != [] {
      var e := events[0];
      if e.status in visible && last != Some(e.status) {
        KeptHasNoRepeats(events[1..], visible, Some(e.status));
        var r := Kept(events, visible, last);
        var tail := Kept(events[1..], visible, Some(e.status));
        assert r == [e] + tail;
        forall k | 0 <= k < |r| - 1 ensures r[k].status != r[k + 1].status {
          if k > 0 {
            assert r[k] == tail[k - 1] && r[k + 1] == tail[k];
          }
        }
      } else {
        KeptHasNoRepeats(events[1..], visible, last);
      }
    }
  }

  /** Nothing is kept exactly when every visible event repeats the status kept before. */
  lemma {:induction false} KeptEmpty(events: seq<Tracking.Event>, visible: set<string>, last: Option<string>)
    ensures Kept(events, visible, last) == [] <==>
              forall i :: 0 <= i < |events| && events[i].status in visible ==> last == Some(events[i].status)
  {
    if events != [] {
      KeptEmpty(events[1..], visible, last);
      forall i | 1 <= i < |events| ensures events[i] == events[1..][i - 1] {
      }
    }
  }

  /** Some event of `r` has status `status`. */
  predicate Shows(r: seq<Tracking.Event>, status: string)
  {
    exists k :: 0 <= k < |r| && r[k].status == status
  }

  /** Every visible status occurs among the kept events, unless it is the status kept before the
      scan started. */
  lemma {:induction false} KeptShowsEveryStatus(events: seq<Tracking.Event>, visible: set<string>,
                                                 last: Option<string>)
    ensures forall i :: 0 <= i < |events| && events[i].status in visible && last != Some(events[i].status) ==>
              Shows(Kept(events, visible, last), events[i].status)
  {
    if events != [] {
      var e := events[0];
      var r := Kept(events, visible, last);
      var next := if e.status in visible && last != Some(e.status) then Some(e.status) else last;
      KeptShowsEveryStatus(events[1..], visible, next);
      var tail := Kept(events[1..], visible, next);
      assert r == if next != last then [e] + tail else tail;
      forall i | 0 <= i < |events| && events[i].status in visible && last != Some(events[i].status)
        ensures Shows(r, events[i].status)
      {
        if next != last && events[i].status == e.status {
          assert r[0] == e;
        } else {
          assert events[i] == events[1..][i - 1];
          assert Shows(tail, events[i].status);
          var k :| 0 <= k < |tail| && tail[k].status == events[i].status;
          if next != last {
            assert r[k + 1] == tail[k];
          } else {
            assert r[k] == tail[k];
          }
        }
      }
    }
  }

  lemma {:induction false} LastIsSubsequence<T>(s: seq<T>)
    requires s != []
    ensures Seqs.IsSubsequence([s[|s| - 1]], s)
  {
    if |s| > 1 && s[0] != s[|s| - 1] {
      LastIsSubsequence(s[1..]);
      assert s[1..][|s[1..]| - 1] == s[|s| - 1];
    }
  }

  /** What the customer is shown: nothing for no events; only milestones, and at least one, when
      there is a milestone; otherwise the last event; never one status twice in a row; always in
      the order of the history; and every milestone status of the history among them. */
  lemma CustomerViewProperties(events: seq<Tracking.Event>, visible: set<string>)
    ensures events == [] ==> CustomerView(events, visible) == []
    ensures (exists i :: 0 <= i < |events| && events[i].status in visible) ==>
              && CustomerView(events, visible) != []
              && AllVisible(CustomerView(events, visible), visible)
    ensures events != [] && (forall i :: 0 <= i < |events| ==> events[i].status !in visible) ==>
              CustomerView(events, visible) == [events[|events| - 1]]
    ensures var r := CustomerView(events, visible); forall k :: 0 <= k < |r| - 1 ==> r[k].status != r[k + 1].status
    ensures Seqs.IsSubsequence(CustomerView(events, visible), events)
    ensures forall i :: 0 <= i < |events| && events[i].status in visible ==>
              Shows(CustomerView(events, visible), events[i].status)
  {
    KeptShowsEveryStatus(events, visible, None);
    KeptVisible(events, visible, None);
    KeptHasNoRepeats(events, visible, None);
    KeptEmpty(events, visible, None);
    if Kept(events, visible, None) == [] && events != [] {
      LastIsSubsequence(events);
    }
  }
}
