/**
 The runtime configuration manager (runtimecfg/manager.go): overrides stored in a
 table, a published snapshot, appliers that may refuse a change, and the
 compensation that undoes it.  Storage and appliers answer as the parameters say;
 a refused write changes nothing, a refusing applier keeps its component as it was.
 */
module RuntimeConfig {

  import opened Wrappers

  type Key = string

  datatype Value = VBool(b: bool) | VInt(n: int)

  /** A raw JSON text, as far as decoding tells such texts apart. */
  datatype Raw = Empty | Malformed | Null | JBool(b: bool) | JInt(n: int) | JOther

  datatype Mode = HotRead | HotAction | Restart

  datatype Type = BoolType | EnumType(options: seq<int>)

  datatype Spec = Spec(typ: Type, mode: Mode, base: Value)

  datatype Row = Row(raw: Raw, updatedBy: string, updatedAt: string)

  datatype Error = UnknownKey | InvalidValue | Closed | NotWired | Persist | ApplyFailed

  type Specs = map<Key, Spec>

  function Encode(v: Value): Raw {
    match v
    case VBool(b) => JBool(b)
    case VInt(n) => JInt(n)
  }

  function Decode(spec: Spec, raw: Raw): Result<Value, Error> {
    match (spec.typ, raw)
    case (BoolType, JBool(b)) => Success(VBool(b))
    case (EnumType(options), JInt(n)) => if n in options then Success(VInt(n)) else Failure(InvalidValue)
    case _ => Failure(InvalidValue)
  }

  /** Exactly the literals of the type, and the listed options, decode; what was accepted is read back as the same value. */
  lemma DecodeEncode(spec: Spec, raw: Raw)
    ensures Decode(spec, raw).Success?
            <==> (spec.typ.BoolType? && raw.JBool?) || (spec.typ.EnumType? && raw.JInt? && raw.n in spec.typ.options)
    ensures Decode(spec, raw).Success? ==>
              Decode(spec, Encode(Decode(spec, raw).value)) == Decode(spec, raw) && raw == Encode(Decode(spec, raw).value)
  {
  }

  function Effective(spec: Spec, store: map<Key, Row>, k: Key): Value {
    if k in store && Decode(spec, store[k].raw).Success? then Decode(spec, store[k].raw).value else spec.base
  }

  /** The values a restart would come up with. */
  function Reloaded(specs: Specs, store: map<Key, Row>): map<Key, Value> {
    map k | k in specs :: Effective(specs[k], store, k)
  }

  function ReloadedRows(specs: Specs, store: map<Key, Row>): map<Key, Row> {
    map k | k in store && k in specs && Decode(specs[k], store[k].raw).Success? :: store[k]
  }

  /** Snapshot and table agree: a reload would publish what is published. */
  ghost predicate Coherent(specs: Specs, store: map<Key, Row>, values: map<Key, Value>, overrides: map<Key, Row>) {
    values == Reloaded(specs, store) && overrides == ReloadedRows(specs, store)
  }

  lemma SetCoheres(specs: Specs, store: map<Key, Row>, values: map<Key, Value>, overrides: map<Key, Row>, k: Key, row: Row)
    requires Coherent(specs, store, values, overrides) && k in specs && Decode(specs[k], row.raw).Success?
    ensures Coherent(specs, store[k := row], values[k := Decode(specs[k], row.raw).value], overrides[k := row])
  {
  }

  lemma DropCoheres(specs: Specs, store: map<Key, Row>, values: map<Key, Value>, overrides: map<Key, Row>, k: Key)
    requires Coherent(specs, store, values, overrides) && k in specs
    ensures Coherent(specs, store - {k}, values[k := specs[k].base], overrides - {k})
  {
  }

  /** Undoing a change of one key restores coherence with the old snapshot. */
  lemma UndoCoheres(specs: Specs, before: map<Key, Row>, now: map<Key, Row>, values: map<Key, Value>,
                    overrides: map<Key, Row>, k: Key)
    requires Coherent(specs, before, values, overrides) && k in specs
    requires now - {k} == before - {k}
    ensures k in overrides ==> now[k := overrides[k]] == before
    ensures k !in overrides ==> now - {k} == before - {k} && Coherent(specs, now - {k}, values, overrides)
  {
    forall q | q in specs && q != k
      ensures (q in now <==> q in before) && (q in now ==> now[q] == before[q])
    {
      assert (q in now - {k} <==> q in before - {k}) && (q in now - {k} ==> (now - {k})[q] == (before - {k})[q]);
    }
    if k in overrides {
      assert now[k := overrides[k]] - {k} == before - {k};
      assert forall q :: q in now && q != k ==> q in now - {k} && (now - {k})[q] == now[q];
      assert forall q :: q in before && q != k ==> q in before - {k};
      assert before == now[k := overrides[k]];
    } else {
      assert forall q :: q in now - {k} <==> q in before - {k};
      DropCoheres(specs, before, values, overrides, k);
      assert overrides - {k} == overrides;
      assert values[k] == specs[k].base;
      assert values[k := specs[k].base] == values;
    }
  }

  // ----- Appliers -----

  /** One pass over the components: they take the new value in order until one refuses. */
  function Applied(comps: seq<Value>, v: Value, refusesAt: Option<nat>): seq<Value> {
    var n := if refusesAt.Some? && refusesAt.value < |comps| then refusesAt.value else |comps|;
    seq(|comps|, i requires 0 <= i < |comps| => if i < n then v else comps[i])
  }

  predicate Refused(comps: seq<Value>, refusesAt: Option<nat>) {
    refusesAt.Some? && refusesAt.value < |comps|
  }

  /**
   After a refused change and its compensation every component is back at the old
   value exactly when the second pass got past those that had taken the new one.
   */
  lemma ComponentsRestoredExactly(comps: seq<Value>, v: Value, w: Value, first: nat, second: Option<nat>)
    requires first < |comps| && v != w && forall i :: 0 <= i < |comps| ==> comps[i] == v
    ensures Applied(Applied(comps, w, Some(first)), v, second) == comps
            <==> second == None || second.value >= first
  {
    var mid := Applied(comps, w, Some(first));
    var end := Applied(mid, v, second);
    if second.Some? && second.value < first {
      assert end[second.value] == w;
    } else {
      assert forall i :: 0 <= i < |comps| ==> end[i] == v;
    }
  }

  /** From before to after exactly the components of the key have changed, and all of them have the value. */
  ghost predicate AllTook(before: map<Key, seq<Value>>, after: map<Key, seq<Value>>, key: Key, v: Value)
    requires key in before
  {
    && after.Keys == before.Keys && (forall k :: k in before && k != key ==> after[k] == before[k])
    && |after[key]| == |before[key]| && forall i :: 0 <= i < |after[key]| ==> after[key][i] == v
  }

  /** All components of the key have the value. */
  ghost predicate AllHave(comps: map<Key, seq<Value>>, key: Key, v: Value) {
    key in comps && forall i :: 0 <= i < |comps[key]| ==> comps[key][i] == v
  }

  /** What a change of the key comes to on the components when nobody refuses. */
  ghost predicate Reached(spec: Spec, before: map<Key, seq<Value>>, after: map<Key, seq<Value>>, key: Key, v: Value) {
    if spec.mode == Restart || key !in before then after == before else AllTook(before, after, key, v)
  }

  /**
   After a refusal the components of the key were tried with the new and then with
   the old value.  If all had the old one, they all have it again exactly when the
   second pass got past those that had changed; others are never touched.
   */
  ghost predicate TriedBack(before: map<Key, seq<Value>>, after: map<Key, seq<Value>>, key: Key, prior: Value, v: Value,
                            first: Option<nat>, second: Option<nat>)
  {
    && key in before && first.Some? && after.Keys == before.Keys
    && (forall k :: k in before && k != key ==> after[k] == before[k])
    && (AllHave(before, key, prior) && v != prior ==>
          (after == before <==> second.None? || second.value >= first.value))
  }

  lemma TryingBack(before: map<Key, seq<Value>>, key: Key, prior: Value, v: Value, first: Option<nat>, second: Option<nat>)
    requires key in before && Refused(before[key], first)
    ensures var after := before[key := Applied(Applied(before[key], v, first), prior, second)];
            TriedBack(before, after, key, prior, v, first, second)
  {
    var comps := Applied(Applied(before[key], v, first), prior, second);
    if AllHave(before, key, prior) && v != prior {
      ComponentsRestoredExactly(before[key], prior, v, first.value, second);
      assert before[key := comps] == before <==> comps == before[key];
    }
  }

  class Manager {
    const specs: Specs
    var store: map<Key, Row>
    var values: map<Key, Value>
    var overrides: map<Key, Row>
    var components: map<Key, seq<Value>>
    var closed: bool

    ghost predicate Valid()
      reads this
    {
      Coherent(specs, store, values, overrides)
    }

    /** `rows` is the listing of the table, in any order. */
    constructor (specs: Specs, rows: seq<(Key, Row)>, components: map<Key, seq<Value>>)
      requires forall i, j :: 0 <= i < j < |rows| ==> rows[i].0 != rows[j].0
      ensures Valid() && this.specs == specs && this.components == components && !closed
      ensures forall k :: k in store <==> exists i :: 0 <= i < |rows| && rows[i].0 == k
      ensures forall i :: 0 <= i < |rows| ==> rows[i].0 in store && store[rows[i].0] == rows[i].1
    {
      this.specs, this.components, closed := specs, components, false;
      var table, snap, kept := map[], map k | k in specs :: specs[k].base, map[];
      for i := 0 to |rows|
        invariant Coherent(specs, table, snap, kept)
        invariant forall k :: k in table <==> exists j :: 0 <= j < i && rows[j].0 == k
        invariant forall j :: 0 <= j < i ==> rows[j].0 in table && table[rows[j].0] == rows[j].1
      {
        var (key, row) := rows[i];
        LoadOne(specs, table, snap, kept, key, row);
        table := table[key := row];
        if key in specs && Decode(specs[key], row.raw).Success? {
          snap := snap[key := Decode(specs[key], row.raw).value];
          kept := kept[key := row];
        }
      }
      store, values, overrides := table, snap, kept;
    }

    method Apply(key: Key, v: Value, refusesAt: Option<nat>) returns (ok: bool)
      requires key in specs
      modifies this`components
      ensures specs[key].mode == Restart || key !in old(components) ==> ok && components == old(components)
      ensures specs[key].mode != Restart && key in old(components) ==>
                && components == old(components)[key := Applied(old(components)[key], v, refusesAt)]
                && ok == !Refused(old(components)[key], refusesAt)
    {
      if specs[key].mode == Restart || key !in components {
        return true;
      }
      var comps := components[key];
      var i := 0;
      while i < |comps| && refusesAt != Some(i)
        invariant 0 <= i <= |comps| == |components[key]|
        invariant refusesAt.Some? ==> i <= refusesAt.value || refusesAt.value > |comps|
        invariant forall j :: 0 <= j < |comps| ==> comps[j] == if j < i then v else components[key][j]
      {
        comps := comps[i := v];
        i := i + 1;
      }
      assert comps == Applied(components[key], v, refusesAt);
      ok := i == |comps|;
      components := components[key := comps];
    }

    predicate Wired(key: Key)
      requires key in specs
      reads this
    {
      specs[key].mode == HotAction ==> key in components && components[key] != []
    }

    /** Appliers are asked about the key, and one of them says no. */
    predicate Refuses(key: Key, refusesAt: Option<nat>)
      requires key in specs
      reads this
    {
      specs[key].mode != Restart && key in components && Refused(components[key], refusesAt)
    }

    /**
     Save, publish, apply, compensate.  The published values are the old ones after
     every failure; the table agrees with them unless the compensating write failed
     on a value that differs.
     */
    method Update(key: Key, raw: Raw, user: string, now: string,
                  saves: bool, compensates: bool, refusesAt: Option<nat>, thenRefusesAt: Option<nat>)
      returns (r: Result<bool, Error>)
      requires Valid()
      modifies this
      ensures r == Failure(UnknownKey) <==> key !in specs
      ensures key in specs ==> (r == Failure(InvalidValue) <==> Decode(specs[key], raw).Failure?)
      ensures key in specs && Decode(specs[key], raw).Success? ==>
                && (r == Failure(Closed) <==> old(closed))
                && (r == Failure(NotWired) <==> !old(closed) && !old(Wired(key)))
                && (r == Failure(Persist) <==> !old(closed) && old(Wired(key)) && !saves)
                && (r == Failure(ApplyFailed) <==>
                      !old(closed) && old(Wired(key)) && saves && old(Refuses(key, refusesAt)))
                && (r.Success? <==> !old(closed) && old(Wired(key)) && saves && !old(Refuses(key, refusesAt)))
      ensures r.Success? ==>
                && Valid() && key in specs && Decode(specs[key], raw).Success?
                && values == old(values)[key := Decode(specs[key], raw).value]
                && store == old(store)[key := Row(raw, user, now)]
                && r.value == (specs[key].mode == Restart)
                && Reached(specs[key], old(components), components, key, Decode(specs[key], raw).value)
      ensures r == Failure(ApplyFailed) ==>
                TriedBack(old(components), components, key, old(values)[key], Decode(specs[key], raw).value,
                          refusesAt, thenRefusesAt)
      ensures r.Failure? ==> values == old(values) && overrides == old(overrides)
      ensures r.Failure? && r.error != ApplyFailed ==> store == old(store) && components == old(components)
      ensures r == Failure(ApplyFailed) ==>
                && key in specs && Decode(specs[key], raw).Success?
                && (Reloaded(specs, store) == values <==>
                      compensates || Decode(specs[key], raw).value == old(values)[key])
      ensures r == Failure(ApplyFailed) && compensates ==>
                Valid() && store == if key in overrides then old(store) else old(store) - {key}
    {
      if key !in specs {
        return Failure(UnknownKey);
      }
      var spec := specs[key];
      var decoded := Decode(spec, raw);
      if decoded.Failure? {
        return Failure(InvalidValue);
      }
      if closed {
        return Failure(Closed);
      }
      if !Wired(key) {
        return Failure(NotWired);
      }
      if !saves {
        return Failure(Persist);
      }
      DecodeEncode(spec, raw);
      var row := Row(Encode(decoded.value), user, now);
      SetCoheres(specs, store, values, overrides, key, row);
      StillSet(specs, store, values, overrides, key, row);
      var ok := Change(key, decoded.value, store[key := row], overrides[key := row], compensates, refusesAt, thenRefusesAt);
      return if ok then Success(spec.mode == Restart) else Failure(ApplyFailed);
    }

    /** The new snapshot is published and applied; a refusal undoes both as far as it can. */
    method Change(key: Key, v: Value, rows: map<Key, Row>, kept: map<Key, Row>,
                  compensates: bool, refusesAt: Option<nat>, thenRefusesAt: Option<nat>)
      returns (ok: bool)
      requires Valid() && key in specs && rows - {key} == store - {key}
      requires Coherent(specs, rows, values[key := v], kept)
      modifies this`values, this`overrides, this`store, this`components
      ensures ok <==> !old(Refuses(key, refusesAt))
      ensures ok ==> values == old(values)[key := v] && overrides == kept && store == rows
                     && Reached(specs[key], old(components), components, key, v)
      ensures !ok ==> values == old(values) && overrides == old(overrides)
                      && TriedBack(old(components), components, key, old(values)[key], v, refusesAt, thenRefusesAt)
      ensures !ok ==> if compensates
                      then Valid() && store == if key in overrides then old(store) else old(store) - {key}
                      else store == rows
    {
      ghost var before, comps := store, components;
      var oldValues, oldOverrides := values, overrides;
      store, values, overrides := rows, values[key := v], kept;
      ok := Apply(key, v, refusesAt);
      if !ok {
        Rollback(key, oldValues, oldOverrides, before, compensates, thenRefusesAt);
        TryingBack(comps, key, oldValues[key], v, refusesAt, thenRefusesAt);
        assert components == comps[key := Applied(Applied(comps[key], v, refusesAt), oldValues[key], thenRefusesAt)];
      }
    }

    /** The old snapshot is published, the table written back, and the old value applied again. */
    method Rollback(key: Key, oldValues: map<Key, Value>, oldOverrides: map<Key, Row>, ghost before: map<Key, Row>,
                    compensates: bool, refusesAt: Option<nat>)
      requires Coherent(specs, before, oldValues, oldOverrides) && key in specs && store - {key} == before - {key}
      modifies this`values, this`overrides, this`store, this`components
      ensures values == oldValues && overrides == oldOverrides
      ensures compensates ==> Valid() && store == if key in overrides then before else before - {key}
      ensures !compensates ==> store == old(store)
      ensures specs[key].mode == Restart || key !in old(components) ==> components == old(components)
      ensures specs[key].mode != Restart && key in old(components) ==>
                components == old(components)[key := Applied(old(components)[key], oldValues[key], refusesAt)]
    {
      values, overrides := oldValues, oldOverrides;
      if compensates {
        UndoCoheres(specs, before, store, oldValues, oldOverrides, key);
        store := if key in oldOverrides then store[key := oldOverrides[key]] else store - {key};
      }
      var restored := Apply(key, oldValues[key], refusesAt);
    }

    /** Back to the default; without an override there is nothing to do. */
    method Reset(key: Key, deletes: bool, compensates: bool, refusesAt: Option<nat>, thenRefusesAt: Option<nat>)
      returns (r: Result<bool, Error>)
      requires Valid()
      modifies this
      ensures r == Failure(UnknownKey) <==> key !in specs
      ensures key in specs ==>
                && (r == Failure(Closed) <==> old(closed))
                && (!old(closed) && key !in old(overrides) ==> r == Success(false))
      ensures key in specs && !old(closed) && key in old(overrides) ==>
                && (r == Failure(NotWired) <==> !old(Wired(key)))
                && (r == Failure(Persist) <==> old(Wired(key)) && !deletes)
                && (r == Failure(ApplyFailed) <==> old(Wired(key)) && deletes && old(Refuses(key, refusesAt)))
                && (r.Success? <==> old(Wired(key)) && deletes && !old(Refuses(key, refusesAt)))
      ensures r.Success? ==>
                && Valid() && key in specs && values == old(values)[key := specs[key].base]
                && store == (if key in old(overrides) then old(store) - {key} else old(store))
                && (key !in old(overrides) ==> components == old(components) && !r.value)
                && (key in old(overrides) ==>
                      r.value == (specs[key].mode == Restart) && Reached(specs[key], old(components), components, key, specs[key].base))
      ensures r == Failure(ApplyFailed) ==>
                TriedBack(old(components), components, key, old(values)[key], specs[key].base, refusesAt, thenRefusesAt)
      ensures r.Failure? ==> values == old(values) && overrides == old(overrides)
      ensures r.Failure? && r.error != ApplyFailed ==> store == old(store) && components == old(components)
      ensures r == Failure(ApplyFailed) ==>
                && key in specs
                && (Reloaded(specs, store) == values <==> compensates || specs[key].base == old(values)[key])
      ensures r == Failure(ApplyFailed) && compensates ==> Valid() && store == old(store)
    {
      if key !in specs {
        return Failure(UnknownKey);
      }
      var spec := specs[key];
      if closed {
        return Failure(Closed);
      }
      if key !in overrides {
        assert values[key := spec.base] == values;
        return Success(false);
      }
      if !Wired(key) {
        return Failure(NotWired);
      }
      if !deletes {
        return Failure(Persist);
      }
      DropCoheres(specs, store, values, overrides, key);
      var ok := Change(key, spec.base, store - {key}, overrides - {key}, compensates, refusesAt, thenRefusesAt);
      return if ok then Success(spec.mode == Restart) else Failure(ApplyFailed);
    }

    method Close()
      modifies this`closed, this`components
      ensures closed && components == map[]
    {
      closed, components := true, map[];
    }
  }

  lemma LoadOne(specs: Specs, table: map<Key, Row>, snap: map<Key, Value>, kept: map<Key, Row>, key: Key, row: Row)
    requires Coherent(specs, table, snap, kept) && key !in table
    ensures key in specs && Decode(specs[key], row.raw).Success? ==>
              Coherent(specs, table[key := row], snap[key := Decode(specs[key], row.raw).value], kept[key := row])
    ensures !(key in specs && Decode(specs[key], row.raw).Success?) ==>
              Coherent(specs, table[key := row], snap, kept)
  {
  }

  /** With the new row still in the table, a reload differs from the old values exactly at a changed value. */
  lemma StillSet(specs: Specs, before: map<Key, Row>, values: map<Key, Value>, overrides: map<Key, Row>, k: Key, row: Row)
    requires Coherent(specs, before, values, overrides) && k in specs && Decode(specs[k], row.raw).Success?
    ensures Reloaded(specs, before[k := row]) == values <==> Decode(specs[k], row.raw).value == values[k]
    ensures before[k := row] - {k} == before - {k}
  {
    var t := Reloaded(specs, before[k := row]);
    assert t[k] == Decode(specs[k], row.raw).value;
    assert forall q :: q in specs && q != k ==> t[q] == values[q];
  }
}
