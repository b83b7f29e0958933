/** The reminder poll: on each tick it notifies every medication whose next
    dose has come, unless the previous notifying check was less than 50
    seconds earlier. */
module Reminder {
  import opened MedTypes
  import opened Card
  import opened Ledger

  /** The debounce window in milliseconds. */
  const DebounceMs: int := 50_000
  const NotificationTitle: string := "Hora de tu medicamento"

  /** An OS notification; `tag` is the medication id, so a later
      notification for the same medication replaces an earlier one. */
  datatype Notification = Notification(tag: string, title: string, body: string)

  /** The poll only looks at medications that have a next dose. */
  predicate ShouldNotify(m: Medication, now: int)
  {
    m.nextDose.Some? && m.nextDose.value <= now
  }

  function NotificationFor(m: Medication): Notification
  {
    Notification(m.id, NotificationTitle, "Es hora de tomar: " + m.name + " (" + m.dosage + ")")
  }

  /** The notifications one notifying check fires, in list order. */
  function DueNotifications(meds: seq<Medication>, now: int): seq<Notification>
  {
    if meds == [] then []
    else
      var last := meds[|meds| - 1];
      DueNotifications(meds[..|meds| - 1], now) + (if ShouldNotify(last, now) then [NotificationFor(last)] else [])
  }

  /** A check notifies each medication whose next dose is at or before
      `now`, once, and nothing else; so at most one notification per
      medication. */
  lemma {:induction false} DueNotificationsSpec(meds: seq<Medication>, now: int)
    ensures var r := DueNotifications(meds, now);
      |r| <= |meds|
      && (forall i :: 0 <= i < |meds| && ShouldNotify(meds[i], now) ==> NotificationFor(meds[i]) in r)
      && (forall n :: n in r ==> exists i :: 0 <= i < |meds| && ShouldNotify(meds[i], now) && n == NotificationFor(meds[i]))
  {
    if meds != [] {
      var init := meds[..|meds| - 1];
      DueNotificationsSpec(init, now);
      var r := DueNotifications(meds, now);
      forall n | n in r
        ensures exists i :: 0 <= i < |meds| && ShouldNotify(meds[i], now) && n == NotificationFor(meds[i])
      {
        if n in DueNotifications(init, now) {
          var i :| 0 <= i < |init| && ShouldNotify(init[i], now) && n == NotificationFor(init[i]);
          assert meds[i] == init[i];
        } else {
          assert n == NotificationFor(meds[|meds| - 1]);
        }
      }
      forall i | 0 <= i < |meds| && ShouldNotify(meds[i], now) ensures NotificationFor(meds[i]) in r {
        if i < |init| { assert init[i] == meds[i]; }
      }
    }
  }

  /** With unique ids a check notifies each medication whose next dose has
      come exactly once, and every other medication not at all. */
  lemma {:induction false} DueNotificationsOnce(meds: seq<Medication>, now: int)
    requires UniqueIds(meds)
    ensures var r := DueNotifications(meds, now);
      forall i :: 0 <= i < |meds| ==>
        multiset(r)[NotificationFor(meds[i])] == (if ShouldNotify(meds[i], now) then 1 else 0)
  {
    if meds != [] {
      var init, last := meds[..|meds| - 1], meds[|meds| - 1];
      assert UniqueIds(init) by {
        forall i, j | 0 <= i < j < |init| ensures init[i].id != init[j].id {
          assert init[i] == meds[i] && init[j] == meds[j];
        }
      }
      DueNotificationsOnce(init, now);
      DueNotificationsSpec(init, now);
      var r0 := DueNotifications(init, now);
      var tail := if ShouldNotify(last, now) then [NotificationFor(last)] else [];
      assert multiset(r0 + tail) == multiset(r0) + multiset(tail);
      assert NotificationFor(last) !in r0 by {
        forall n | n in r0 ensures n.tag != last.id {
          var j :| 0 <= j < |init| && ShouldNotify(init[j], now) && n == NotificationFor(init[j]);
          assert init[j] == meds[j];
        }
      }
      forall i | 0 <= i < |meds|
        ensures multiset(r0 + tail)[NotificationFor(meds[i])] == (if ShouldNotify(meds[i], now) then 1 else 0)
      {
        if i < |init| {
          assert init[i] == meds[i];
          assert meds[i].id != last.id;
          assert multiset(tail)[NotificationFor(meds[i])] == 0;
        } else {
          assert meds[i] == last;
          assert multiset(r0)[NotificationFor(last)] == 0;
        }
      }
      assert DueNotifications(meds, now) == r0 + tail;
    }
  }

  /** Every notified medication is due on its card; a medication without a
      next dose is due on its card but is never notified. */
  lemma {:induction false} NotifiedAreDue(meds: seq<Medication>, now: int, k: nat)
    requires UniqueIds(meds) && k < |meds|
    ensures forall i :: 0 <= i < |meds| && ShouldNotify(meds[i], now) ==> IsDue(meds[i], now)
    ensures meds[k].nextDose.None? ==>
              IsDue(meds[k], now) && forall n :: n in DueNotifications(meds, now) ==> n.tag != meds[k].id
  {
    DueNotificationsSpec(meds, now);
    if meds[k].nextDose.None? {
      forall n | n in DueNotifications(meds, now) ensures n.tag != meds[k].id {
        var i :| 0 <= i < |meds| && ShouldNotify(meds[i], now) && n == NotificationFor(meds[i]);
        assert i != k;
      }
    }
  }

  /** One poll from the last notifying check's time: the new last-check
      time and what it notifies. */
  function PollStep(lastCheck: int, meds: seq<Medication>, now: int): (int, seq<Notification>)
  {
    if now - lastCheck < DebounceMs then (lastCheck, []) else (now, DueNotifications(meds, now))
  }

  /** Inside the window a poll does nothing at all; from the window's end
      on it records `now` and notifies. Two notifying polls are therefore at
      least 50 seconds apart, and one right after a notifying poll is
      silent. */
  lemma PollDebounce(lastCheck: int, meds: seq<Medication>, now: int, later: int)
    ensures now - lastCheck < DebounceMs ==> PollStep(lastCheck, meds, now) == (lastCheck, [])
    ensures now - lastCheck >= DebounceMs ==> PollStep(lastCheck, meds, now).0 == now
    ensures now - lastCheck >= DebounceMs && later - now < DebounceMs ==>
              PollStep(PollStep(lastCheck, meds, now).0, meds, later) == (now, [])
  {
  }
}
