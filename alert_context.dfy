/**
 * The client's list of live alerts (client/src/context/AlertContext.js):
 * the updaters handed to `setAlerts`, each a function from the previous
 * list to the next one, and the provider holding the current list.
 */
module AlertContext {
  import opened Wrappers

  /** An alert as the client holds it: the `fraud-alert` event's fields. */
  datatype ClientAlert = ClientAlert(id: nat, kind: string, riskScore: int, timestamp: int)

  const MaxLiveAlerts := 100

  /** The first `n` entries, or all of them when there are fewer. */
  function Take<T>(s: seq<T>, n: nat): (r: seq<T>)
    ensures |r| == Min(|s|, n) && r == s[..|r|]
  {
    s[..Min(|s|, n)]
  }

  /** The socket handler: the new alert first, then at most 99 earlier ones. */
  function OnFraudAlert(prev: seq<ClientAlert>, alert: ClientAlert): (r: seq<ClientAlert>)
    ensures |r| == Min(|prev| + 1, MaxLiveAlerts)
    ensures r[0] == alert && r[1..] == prev[..|r| - 1]
  {
    [alert] + Take(prev, MaxLiveAlerts - 1)
  }

  /** `addAlert`: the alert first, every earlier one kept. */
  function AddAlert(prev: seq<ClientAlert>, alert: ClientAlert): (r: seq<ClientAlert>)
    ensures |r| == |prev| + 1 && r[0] == alert && r[1..] == prev
  {
    [alert] + prev
  }

  /** `removeAlert`: every alert with a different id, in their original order. */
  function RemoveAlert(prev: seq<ClientAlert>, alertId: nat): (r: seq<ClientAlert>)
    ensures |r| <= |prev|
  {
    if prev == [] then []
    else RemoveAlert(prev[..|prev| - 1], alertId) + (if prev[|prev| - 1].id != alertId then [prev[|prev| - 1]] else [])
  }

  /** Exactly the alerts with a different id remain. */
  lemma {:induction false} RemoveAlertMembers(prev: seq<ClientAlert>, alertId: nat)
    ensures forall x :: x in RemoveAlert(prev, alertId) <==> x in prev && x.id != alertId
    decreases |prev|
  {
    if prev != [] {
      var init := prev[..|prev| - 1];
      RemoveAlertMembers(init, alertId);
      assert prev == init + [prev[|prev| - 1]];
    }
  }

  /** The socket handler applied to each event of `events` in turn. */
  function ReceiveAll(prev: seq<ClientAlert>, events: seq<ClientAlert>): seq<ClientAlert>
  {
    if events == [] then prev
    else OnFraudAlert(ReceiveAll(prev, events[..|events| - 1]), events[|events| - 1])
  }

  function Reversed<T>(s: seq<T>): (r: seq<T>)
    ensures |r| == |s|
  {
    if s == [] then [] else [s[|s| - 1]] + Reversed(s[..|s| - 1])
  }

  /**
   * After at least one event the list holds the newest alerts first,
   * followed by the earlier list, cut to the latest 100.
   */
  lemma {:induction false} ReceiveAllKeepsLatest(prev: seq<ClientAlert>, events: seq<ClientAlert>)
    requires events != []
    ensures ReceiveAll(prev, events) == Take(Reversed(events) + prev, MaxLiveAlerts)
    decreases |events|
  {
    var init := events[..|events| - 1];
    var e := events[|events| - 1];
    assert Reversed(events) == [e] + Reversed(init);
    if init == [] {
      assert ReceiveAll(prev, init) == prev;
      assert Reversed(init) == [];
      assert [e] + Reversed(init) + prev == [e] + prev;
    } else {
      ReceiveAllKeepsLatest(prev, init);
      var s := Reversed(init) + prev;
      assert ReceiveAll(prev, init) == Take(s, MaxLiveAlerts);
      assert Take(Take(s, MaxLiveAlerts), MaxLiveAlerts - 1) == Take(s, MaxLiveAlerts - 1);
      assert [e] + Reversed(init) + prev == [e] + s;
    }
  }

  /** The socket handler keeps a list of at most 100 alerts at most 100 long, however many events arrive. */
  lemma LiveListStaysBounded(prev: seq<ClientAlert>, events: seq<ClientAlert>)
    requires |prev| <= MaxLiveAlerts
    ensures |ReceiveAll(prev, events)| <= MaxLiveAlerts
  {
    if events != [] {
      ReceiveAllKeepsLatest(prev, events);
    }
  }

  /** Removing distributes over concatenation, so the kept alerts stay in their original order. */
  lemma {:induction false} RemoveAlertKeepsOrder(a: seq<ClientAlert>, b: seq<ClientAlert>, alertId: nat)
    ensures RemoveAlert(a + b, alertId) == RemoveAlert(a, alertId) + RemoveAlert(b, alertId)
    decreases |b|
  {
    if b == [] {
      assert a + b == a;
    } else {
      var init := b[..|b| - 1];
      var last := b[|b| - 1];
      var tail := if last.id != alertId then [last] else [];
      var ab := a + b;
      assert ab[..|ab| - 1] == a + init;
      assert ab[|ab| - 1] == last;
      RemoveAlertKeepsOrder(a, init, alertId);
      calc {
        RemoveAlert(ab, alertId);
        RemoveAlert(a + init, alertId) + tail;
        (RemoveAlert(a, alertId) + RemoveAlert(init, alertId)) + tail;
        RemoveAlert(a, alertId) + (RemoveAlert(init, alertId) + tail);
        RemoveAlert(a, alertId) + RemoveAlert(b, alertId);
      }
    }
  }

  /** Removing an id twice is removing it once. */
  lemma {:induction false} RemoveAlertIdempotent(prev: seq<ClientAlert>, alertId: nat)
    ensures RemoveAlert(RemoveAlert(prev, alertId), alertId) == RemoveAlert(prev, alertId)
    decreases |prev|
  {
    if prev != [] {
      var init := prev[..|prev| - 1];
      var last := prev[|prev| - 1];
      var tail := if last.id != alertId then [last] else [];
      RemoveAlertIdempotent(init, alertId);
      RemoveAlertKeepsOrder(RemoveAlert(init, alertId), tail, alertId);
      assert RemoveAlert(tail, alertId) == tail by {
        if tail != [] {
          assert tail[..0] == [];
        }
      }
    }
  }

  /** An id no alert has changes nothing. */
  lemma {:induction false} RemoveAbsentIdChangesNothing(prev: seq<ClientAlert>, alertId: nat)
    requires forall x :: x in prev ==> x.id != alertId
    ensures RemoveAlert(prev, alertId) == prev
    decreases |prev|
  {
    if prev != [] {
      var init := prev[..|prev| - 1];
      var last := prev[|prev| - 1];
      forall x | x in init ensures x.id != alertId {
        var i :| 0 <= i < |init| && init[i] == x;
        assert prev[i] == x;
      }
      RemoveAbsentIdChangesNothing(init, alertId);
      assert last in prev;
      assert RemoveAlert(prev, alertId) == init + [last];
      assert prev == init + [last];
    }
  }

  /** Adding an alert and removing its id is removing that id from the earlier list. */
  lemma RemoveUndoesAdd(prev: seq<ClientAlert>, alert: ClientAlert)
    ensures RemoveAlert(AddAlert(prev, alert), alert.id) == RemoveAlert(prev, alert.id)
  {
    RemoveAlertKeepsOrder([alert], prev, alert.id);
    assert [alert][..0] == [];
  }

  /** The provider's state: the list the updaters replace. */
  class AlertProvider {
    var alerts: seq<ClientAlert>

    /** `useState([])`. */
    constructor()
      ensures alerts == []
    {
      alerts := [];
    }

    method ReceiveFraudAlert(alert: ClientAlert)
      modifies this
      ensures alerts == OnFraudAlert(old(alerts), alert)
    {
      alerts := [alert] + alerts[..Min(|alerts|, MaxLiveAlerts - 1)];
    }

    method Add(alert: ClientAlert)
      modifies this
      ensures alerts == AddAlert(old(alerts), alert)
    {
      alerts := [alert] + alerts;
    }

    method Remove(alertId: nat)
      modifies this
      ensures alerts == RemoveAlert(old(alerts), alertId)
    {
      alerts := RemoveAlert(alerts, alertId);
    }

    /** `clearAlerts`. */
    method Clear()
      modifies this
      ensures alerts == []
    {
      alerts := [];
    }
  }
}
