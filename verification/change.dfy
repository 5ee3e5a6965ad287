/**
 The change filter in front of the push channels (push/change.go): a record is
 passed on when its point is new, when a fact about it changed, or when its
 keepalive is due.
 */
module Change {

  datatype Facts = Facts(value: string, quality: int, thingModelCode: string, propertyCode: string,
                         groupID: string, groupName: string, groupIntervalMs: int)

  /** `extra` stands for everything that is carried along without being compared. */
  datatype Record = Record(deviceID: string, addressID: string, facts: Facts, extra: string)

  datatype Key = Key(deviceID: string, addressID: string, groupID: string)

  /** The facts last passed on for a point and when. */
  datatype Entry = Entry(facts: Facts, at: int)

  type Tracker = map<Key, Entry>

  function KeyOf(r: Record): Key {
    Key(r.deviceID, r.addressID, r.facts.groupID)
  }

  /** Records that cannot be told apart by key are never suppressed. */
  predicate Keyed(r: Record) {
    r.deviceID != "" && r.addressID != ""
  }

  predicate Suppressed(last: Tracker, r: Record, now: int, keepalive: int) {
    && Keyed(r) && KeyOf(r) in last && last[KeyOf(r)].facts == r.facts
    && (keepalive <= 0 || now - last[KeyOf(r)].at < keepalive)
  }

  function Noted(last: Tracker, r: Record, now: int): Tracker {
    if Keyed(r) then last[KeyOf(r) := Entry(r.facts, now)] else last
  }

  /** The tracker after a batch, and what it let through. */
  function After(last: Tracker, rs: seq<Record>, now: int, keepalive: int): Tracker {
    if rs == [] then last
    else
      var t := After(last, rs[..|rs| - 1], now, keepalive);
      var r := rs[|rs| - 1];
      if Suppressed(t, r, now, keepalive) then t else Noted(t, r, now)
  }

  function Passed(last: Tracker, rs: seq<Record>, now: int, keepalive: int): (out: seq<Record>)
    ensures |out| <= |rs|
    ensures forall r :: r in out ==> r in rs
  {
    if rs == [] then []
    else
      var front := rs[..|rs| - 1];
      var r := rs[|rs| - 1];
      Passed(last, front, now, keepalive)
      + if Suppressed(After(last, front, now, keepalive), r, now, keepalive) then [] else [r]
  }

  class ChangeTracker {
    var last: Tracker

    constructor ()
      ensures last == map[]
    {
      last := map[];
    }

    method Filter(records: seq<Record>, now: int, keepalive: int) returns (out: seq<Record>)
      modifies this
      ensures last == After(old(last), records, now, keepalive)
      ensures out == Passed(old(last), records, now, keepalive)
    {
      out := [];
      assert records[..0] == [];
      for i := 0 to |records|
        invariant last == After(old(last), records[..i], now, keepalive)
        invariant out == Passed(old(last), records[..i], now, keepalive)
      {
        assert records[..i + 1][..i] == records[..i];
        var r := records[i];
        if r.deviceID == "" || r.addressID == "" {
          out := out + [r];
          continue;
        }
        var key := Key(r.deviceID, r.addressID, r.facts.groupID);
        if key in last && last[key].facts == r.facts {
          if keepalive <= 0 || now - last[key].at < keepalive {
            continue;
          }
        }
        last := last[key := Entry(r.facts, now)];
        out := out + [r];
      }
      assert records[..|records|] == records;
    }

    method Reset()
      modifies this
      ensures last == map[]
    {
      last := map[];
    }
  }

  // ----- What a receiver ends up knowing -----

  datatype Sent = Sent(record: Record, at: int)

  /** The last facts per point in a stream of records, and when they came. */
  function View(stream: seq<Sent>): map<Key, Entry> {
    if stream == [] then map[]
    else
      var s := stream[|stream| - 1];
      View(stream[..|stream| - 1])[KeyOf(s.record) := Entry(s.record.facts, s.at)]
  }

  function Stamp(rs: seq<Record>, now: int): (stream: seq<Sent>)
    ensures |stream| == |rs|
  {
    if rs == [] then [] else Stamp(rs[..|rs| - 1], now) + [Sent(rs[|rs| - 1], now)]
  }

  lemma {:induction false} StampConcat(a: seq<Record>, b: seq<Record>, now: int)
    ensures Stamp(a + b, now) == Stamp(a, now) + Stamp(b, now)
  {
    if b == [] {
      assert a + b == a;
    } else {
      StampConcat(a, b[..|b| - 1], now);
      assert (a + b)[..|a + b| - 1] == a + b[..|b| - 1];
    }
  }

  lemma ViewSnoc(stream: seq<Sent>, s: Sent)
    ensures View(stream + [s]) == View(stream)[KeyOf(s.record) := Entry(s.record.facts, s.at)]
  {
    assert (stream + [s])[..|stream|] == stream;
  }

  /** Two receivers know the same facts about the same points. */
  ghost predicate SameFacts(a: map<Key, Entry>, b: map<Key, Entry>) {
    && a.Keys == b.Keys
    && forall k :: k in a ==> a[k].facts == b[k].facts
  }

  /** Whatever the tracker holds about points of a group, a receiver of that group got it, then. */
  ghost predicate Tracks(last: Tracker, view: map<Key, Entry>, device: string, group: string) {
    && (forall k :: k in last ==> k.deviceID != "" && k.addressID != "")
    && (forall k :: k in last && k.deviceID == device && k.groupID == group ==> k in view && view[k] == last[k])
  }

  predicate InBucket(r: Record, device: string, group: string) {
    r.deviceID == device && r.facts.groupID == group
  }

  ghost predicate AllIn(rs: seq<Record>, device: string, group: string) {
    forall r :: r in rs ==> InBucket(r, device, group)
  }

  lemma AllButLast(rs: seq<Record>, device: string, group: string)
    requires AllIn(rs, device, group) && rs != []
    ensures AllIn(rs[..|rs| - 1], device, group) && InBucket(rs[|rs| - 1], device, group)
  {
    assert rs[|rs| - 1] in rs;
  }

  /** The receiver of `got` knows as much as that of `full`, and the tracker knows that. */
  ghost predicate Informed(last: Tracker, got: seq<Sent>, full: seq<Sent>, device: string, group: string) {
    SameFacts(View(got), View(full)) && Tracks(last, View(got), device, group)
  }

  lemma PassedIsInvisible(last: Tracker, got: seq<Sent>, full: seq<Sent>, r: Record, now: int,
                          device: string, group: string)
    requires Informed(last, got, full, device, group)
    ensures Informed(Noted(last, r, now), got + [Sent(r, now)], full + [Sent(r, now)], device, group)
  {
    ViewSnoc(got, Sent(r, now));
    ViewSnoc(full, Sent(r, now));
  }

  lemma SuppressedIsInvisible(last: Tracker, got: seq<Sent>, full: seq<Sent>, r: Record, now: int, keepalive: int,
                              device: string, group: string)
    requires Informed(last, got, full, device, group) && InBucket(r, device, group)
    requires Suppressed(last, r, now, keepalive)
    ensures Informed(last, got, full + [Sent(r, now)], device, group)
  {
    ViewSnoc(full, Sent(r, now));
    assert KeyOf(r) in View(got) && View(got)[KeyOf(r)] == last[KeyOf(r)];
  }

  /**
   One bucket of records offered to a receiver that gets only what passes: it
   stays as well informed as one that gets everything.
   */
  lemma {:induction false} FilterIsInvisible(last: Tracker, rs: seq<Record>, now: int, keepalive: int,
                                             device: string, group: string, got: seq<Sent>, full: seq<Sent>)
    requires AllIn(rs, device, group)
    requires Informed(last, got, full, device, group)
    ensures Informed(After(last, rs, now, keepalive),
                     got + Stamp(Passed(last, rs, now, keepalive), now), full + Stamp(rs, now), device, group)
  {
    if rs == [] {
      assert got + [] == got && full + [] == full;
    } else {
      var front, r := rs[..|rs| - 1], rs[|rs| - 1];
      AllButLast(rs, device, group);
      FilterIsInvisible(last, front, now, keepalive, device, group, got, full);
      assert rs == front + [r];
      StampSnoc(front, r, now);
      var t, out := After(last, front, now, keepalive), Passed(last, front, now, keepalive);
      var got', full' := got + Stamp(out, now), full + Stamp(front, now);
      assert full + Stamp(rs, now) == full' + [Sent(r, now)];
      if Suppressed(t, r, now, keepalive) {
        assert Passed(last, rs, now, keepalive) == out;
        SuppressedIsInvisible(t, got', full', r, now, keepalive, device, group);
      } else {
        StampSnoc(out, r, now);
        assert got + Stamp(out + [r], now) == got' + [Sent(r, now)];
        PassedIsInvisible(t, got', full', r, now, device, group);
      }
    }
  }

  lemma StampSnoc(rs: seq<Record>, r: Record, now: int)
    ensures Stamp(rs + [r], now) == Stamp(rs, now) + [Sent(r, now)]
  {
    assert (rs + [r])[..|rs|] == rs;
  }

  /** Points outside the bucket are left alone. */
  lemma {:induction false} FilterIsLocal(last: Tracker, rs: seq<Record>, now: int, keepalive: int,
                                         device: string, group: string, k: Key)
    requires AllIn(rs, device, group)
    requires k.deviceID != device || k.groupID != group
    ensures var t := After(last, rs, now, keepalive);
            (k in t <==> k in last) && (k in last ==> t[k] == last[k])
  {
    if rs != [] {
      AllButLast(rs, device, group);
      FilterIsLocal(last, rs[..|rs| - 1], now, keepalive, device, group, k);
    }
  }

  /**
   Exactly when a keyed record passes.  Within a tracker's memory, unchanged facts
   go out again only once the keepalive has run since they last went out.
   */
  lemma PassesExactly(last: Tracker, rs: seq<Record>, r: Record, now: int, keepalive: int)
    requires Keyed(r)
    ensures var t := After(last, rs, now, keepalive);
            var out := Passed(last, rs + [r], now, keepalive);
            (out == Passed(last, rs, now, keepalive) + [r]) <==>
              || KeyOf(r) !in t || t[KeyOf(r)].facts != r.facts
              || (keepalive > 0 && now - t[KeyOf(r)].at >= keepalive)
  {
    assert (rs + [r])[..|rs|] == rs;
    assert |Passed(last, rs, now, keepalive) + [r]| == |Passed(last, rs, now, keepalive)| + 1;
  }

  /** The filter on a longer bucket starts like that on a shorter one. */
  lemma {:induction false} PassedGrows(last: Tracker, rs: seq<Record>, now: int, keepalive: int, i: nat)
    requires i <= |rs|
    ensures Passed(last, rs[..i], now, keepalive) <= Passed(last, rs, now, keepalive)
    decreases |rs|
  {
    if i == |rs| {
      assert rs[..i] == rs;
    } else {
      assert rs[..|rs| - 1][..i] == rs[..i];
      PassedGrows(last, rs[..|rs| - 1], now, keepalive, i);
    }
  }

  /** The same at place i of a longer bucket. */
  lemma PassesInPlace(last: Tracker, rs: seq<Record>, now: int, keepalive: int, i: nat)
    requires i < |rs| && Keyed(rs[i])
    ensures var t, k := After(last, rs[..i], now, keepalive), KeyOf(rs[i]);
            var before, after := Passed(last, rs[..i], now, keepalive), Passed(last, rs[..i + 1], now, keepalive);
            && before <= after <= Passed(last, rs, now, keepalive)
            && (after == before + [rs[i]] || after == before)
            && (after == before + [rs[i]]
                <==> k !in t || t[k].facts != rs[i].facts || (keepalive > 0 && now - t[k].at >= keepalive))
  {
    assert rs[..i + 1] == rs[..i] + [rs[i]];
    PassesExactly(last, rs[..i], rs[i], now, keepalive);
    assert rs[..i + 1][..i] == rs[..i];
    PassedGrows(last, rs, now, keepalive, i + 1);
  }

  // ----- How far apart unchanged facts arrive -----

  /** The point has come at or after position `from`, before position j. */
  ghost predicate CameBefore(stream: seq<Sent>, from: nat, j: nat, k: Key)
    requires j <= |stream|
  {
    exists i :: from <= i < j && KeyOf(stream[i].record) == k
  }

  /**
   What comes at position j and says what the receiver already had, about a point in
   `memo` or one that has come since position `from`, comes `gap` after that point
   last came, or later.
   */
  ghost predicate SpacedAt(stream: seq<Sent>, from: nat, memo: set<Key>, gap: int, j: nat)
    requires j < |stream|
  {
    var r, had := stream[j].record, View(stream[..j]);
    Keyed(r) && KeyOf(r) in had && had[KeyOf(r)].facts == r.facts
    && (KeyOf(r) in memo || CameBefore(stream, from, j, KeyOf(r)))
    ==> stream[j].at - had[KeyOf(r)].at >= gap
  }

  ghost predicate Spaced(stream: seq<Sent>, from: nat, memo: set<Key>, gap: int) {
    forall j :: from <= j < |stream| ==> SpacedAt(stream, from, memo, gap, j)
  }

  /** The tracker still knows the points in `memo` and those that have come since. */
  ghost predicate Remembers(last: Tracker, stream: seq<Sent>, from: nat, memo: set<Key>) {
    && memo <= last.Keys
    && forall i :: from <= i < |stream| && Keyed(stream[i].record) ==> KeyOf(stream[i].record) in last
  }

  /** Every keepalive in force is off or at least `gap`. */
  predicate AtLeast(keepalive: int, gap: int) {
    keepalive <= 0 || keepalive >= gap
  }

  lemma SpacedSnoc(stream: seq<Sent>, from: nat, memo: set<Key>, gap: int, s: Sent)
    requires from <= |stream| && Spaced(stream, from, memo, gap)
    requires SpacedAt(stream + [s], from, memo, gap, |stream|)
    ensures Spaced(stream + [s], from, memo, gap)
  {
    forall j | from <= j < |stream|
      ensures SpacedAt(stream + [s], from, memo, gap, j)
    {
      assert SpacedAt(stream, from, memo, gap, j);
      assert (stream + [s])[..j] == stream[..j];
      assert CameBefore(stream + [s], from, j, KeyOf(stream[j].record)) ==> CameBefore(stream, from, j, KeyOf(stream[j].record));
    }
  }

  /** A record that passes the filter is new to the tracker, changed, or due. */
  lemma PassingIsSpaced(last: Tracker, got: seq<Sent>, from: nat, memo: set<Key>, gap: int, r: Record, now: int, keepalive: int)
    requires Tracks(last, View(got), r.deviceID, r.facts.groupID) && Remembers(last, got, from, memo)
    requires from <= |got| && AtLeast(keepalive, gap) && !Suppressed(last, r, now, keepalive)
    ensures SpacedAt(got + [Sent(r, now)], from, memo, gap, |got|)
  {
    var more := got + [Sent(r, now)];
    assert more[..|got|] == got;
    if Keyed(r) && (KeyOf(r) in memo || CameBefore(more, from, |got|, KeyOf(r))) {
      if KeyOf(r) !in memo {
        var i :| from <= i < |got| && KeyOf(more[i].record) == KeyOf(r);
        assert Keyed(got[i].record) && KeyOf(got[i].record) in last;
      }
      assert KeyOf(r) in last && View(got)[KeyOf(r)] == last[KeyOf(r)];
    }
  }

  lemma PassingIsRemembered(last: Tracker, got: seq<Sent>, from: nat, memo: set<Key>, r: Record, now: int)
    requires Remembers(last, got, from, memo)
    ensures Remembers(Noted(last, r, now), got + [Sent(r, now)], from, memo)
  {
  }

  /** What is watched while records reach a receiver. */
  ghost predicate Apart(last: Tracker, got: seq<Sent>, from: nat, memo: set<Key>, gap: int) {
    from <= |got| && Spaced(got, from, memo, gap) && Remembers(last, got, from, memo)
  }

  lemma PassingKeepsApart(last: Tracker, got: seq<Sent>, from: nat, memo: set<Key>, gap: int, r: Record, now: int, keepalive: int)
    requires Tracks(last, View(got), r.deviceID, r.facts.groupID) && Apart(last, got, from, memo, gap)
    requires AtLeast(keepalive, gap) && !Suppressed(last, r, now, keepalive)
    ensures Apart(Noted(last, r, now), got + [Sent(r, now)], from, memo, gap)
  {
    PassingIsSpaced(last, got, from, memo, gap, r, now, keepalive);
    SpacedSnoc(got, from, memo, gap, Sent(r, now));
    PassingIsRemembered(last, got, from, memo, r, now);
  }

  lemma StillTracks(last: Tracker, rs: seq<Record>, now: int, keepalive: int, device: string, group: string, got: seq<Sent>)
    requires AllIn(rs, device, group) && Tracks(last, View(got), device, group)
    ensures Tracks(After(last, rs, now, keepalive), View(got + Stamp(Passed(last, rs, now, keepalive), now)), device, group)
  {
    FilterIsInvisible(last, rs, now, keepalive, device, group, got, got);
  }

  /** One bucket through the filter keeps unchanged facts apart, however often it names a point. */
  lemma {:induction false} FilterSpaces(last: Tracker, rs: seq<Record>, now: int, keepalive: int, device: string, group: string,
                                        got: seq<Sent>, from: nat, memo: set<Key>, gap: int)
    requires AllIn(rs, device, group) && Tracks(last, View(got), device, group)
    requires AtLeast(keepalive, gap) && Apart(last, got, from, memo, gap)
    ensures Apart(After(last, rs, now, keepalive), got + Stamp(Passed(last, rs, now, keepalive), now), from, memo, gap)
  {
    if rs == [] {
      assert got + [] == got;
    } else {
      var front, r := rs[..|rs| - 1], rs[|rs| - 1];
      AllButLast(rs, device, group);
      FilterSpaces(last, front, now, keepalive, device, group, got, from, memo, gap);
      StillTracks(last, front, now, keepalive, device, group, got);
      var t, out := After(last, front, now, keepalive), Passed(last, front, now, keepalive);
      if Suppressed(t, r, now, keepalive) {
        assert Passed(last, rs, now, keepalive) == out;
      } else {
        StampSnoc(out, r, now);
        assert got + Stamp(out + [r], now) == got + Stamp(out, now) + [Sent(r, now)];
        PassingKeepsApart(t, got + Stamp(out, now), from, memo, gap, r, now, keepalive);
      }
    }
  }

  /** The filter forgets no point. */
  lemma {:induction false} NothingForgotten(last: Tracker, rs: seq<Record>, now: int, keepalive: int)
    ensures last.Keys <= After(last, rs, now, keepalive).Keys
  {
    if rs != [] {
      NothingForgotten(last, rs[..|rs| - 1], now, keepalive);
    }
  }
}
