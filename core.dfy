/** `AVMMeta`: a mapping from AVM field names to values, backed by an XMP
    packet. Each key is dispatched to its descriptor; `data` caches what the
    packet held after each successful write, while reads always go to the
    packet. */
module Core {
  import opened Values
  import opened Xmp
  import opened Datatypes
  import opened Descriptors

  /** The field registry (`SPECS_1_1`): field names to descriptors. */
  type Specs = map<string, Descriptor>

  /** No two fields share a property, as in the AVM registry. */
  predicate UniqueProperties(specs: Specs) {
    forall a, b :: a in specs && b in specs && a != b ==> KeyOf(specs[a]) != KeyOf(specs[b])
  }

  /** A Python dict given as its items: no key twice. */
  predicate DistinctKeys(pairs: seq<(string, Value)>) {
    forall i, j :: 0 <= i < j < |pairs| ==> pairs[i].0 != pairs[j].0
  }

  /** The facade's state: the `data` cache and the packet's properties. */
  datatype State = State(data: map<string, Value>, props: Props)

  /** `__setitem__` on a state: KeyError for an unknown key; otherwise
      `set_data`, and when it returns true, `data[key] = get_data(xmp)`. */
  function Assign(specs: Specs, key: string, value: Value, s: State, order: seq<string>): (Result<()>, State) {
    if key !in specs then (Err(KeyError), s)
    else
      var d := specs[key];
      var w := Write(d, value, s.props, order);
      match w.result
      case Err(e) => (Err(e), State(s.data, w.props))
      case Ok(stored) =>
        if !stored then (Ok(()), State(s.data, w.props))
        else
          match Read(d, w.props)
          case Err(e) => (Err(e), State(s.data, w.props))
          case Ok(x) => (Ok(()), State(s.data[key := x], w.props))
  }

  /** After a successful write, `data[key]` is what reading the key returns;
      after one that fails or returns false, neither `data` nor the packet
      has changed; validation errors are raised; and no other field's cache
      entry or property is touched. */
  lemma AssignOutcome(specs: Specs, key: string, value: Value, s: State, order: seq<string>)
    requires key in specs
    ensures var (r, t) := Assign(specs, key, value, s, order);
      var d := specs[key];
      var w := Write(d, value, s.props, order);
      (w.result == Ok(true) ==> r == Ok(()) && key in t.data && Ok(t.data[key]) == Read(d, t.props)) &&
      (w.result != Ok(true) ==> t == s) &&
      (r.Err? <==> Check(d.kind, value).Err?) &&
      (r.Err? ==> r.error == Check(d.kind, value).error) &&
      t.props - {KeyOf(d)} == s.props - {KeyOf(d)} &&
      t.data - {key} == s.data - {key}
  {
    var d := specs[key];
    WriteFrame(d, value, s.props, order);
    if Write(d, value, s.props, order).result == Ok(true) {
      WriteThenReadOk(d, value, s.props, order);
    }
  }

  /** `__setitem__` on one field leaves every other field as it was: its
      cache entry and what reading it returns. */
  lemma AssignFrame(specs: Specs, key: string, value: Value, s: State, order: seq<string>, other: string)
    requires UniqueProperties(specs) && other in specs && other != key
    ensures var t := Assign(specs, key, value, s, order).1;
      Read(specs[other], t.props) == Read(specs[other], s.props) &&
      (other in t.data <==> other in s.data) &&
      (other in s.data ==> t.data[other] == s.data[other])
  {
    var t := Assign(specs, key, value, s, order).1;
    if key in specs {
      AssignOutcome(specs, key, value, s, order);
      var k, ko := KeyOf(specs[key]), KeyOf(specs[other]);
      assert ko != k;
      assert ko in t.props <==> ko in t.props - {k};
      assert ko in s.props <==> ko in s.props - {k};
      if ko in t.props {
        assert t.props[ko] == (t.props - {k})[ko] == (s.props - {k})[ko] == s.props[ko];
      }
      ReadLocal(specs[other], t.props, s.props);
      assert other in t.data <==> other in t.data - {key};
      assert other in s.data <==> other in s.data - {key};
      if other in s.data {
        assert t.data[other] == (t.data - {key})[other];
      }
    }
  }

  /** The bulk assignment of the constructor (core.py:84-90): every pair goes
      through `__setitem__`, and whatever it raises is dropped. */
  function ApplyAllSpec(specs: Specs, pairs: seq<(string, Value)>, s: State, orders: seq<seq<string>>): State
    requires |orders| == |pairs|
    decreases |pairs|
  {
    if pairs == [] then s
    else
      var n := |pairs| - 1;
      var before := ApplyAllSpec(specs, pairs[..n], s, orders[..n]);
      Assign(specs, pairs[n].0, pairs[n].1, before, orders[n]).1
  }

  /** The keys whose write was stored when their turn came. */
  function Accepted(specs: Specs, pairs: seq<(string, Value)>, s: State, orders: seq<seq<string>>): set<string>
    requires |orders| == |pairs|
    decreases |pairs|
  {
    if pairs == [] then {}
    else
      var n := |pairs| - 1;
      var before := ApplyAllSpec(specs, pairs[..n], s, orders[..n]);
      var key := pairs[n].0;
      Accepted(specs, pairs[..n], s, orders[..n]) +
      (if key in specs && Write(specs[key], pairs[n].1, before.props, orders[n]).result == Ok(true)
       then {key} else {})
  }

  /** Fields the bulk assignment does not name keep their cache entry and
      what reading them returns. */
  lemma {:induction false} ApplyAllFrame(specs: Specs, pairs: seq<(string, Value)>, s: State, orders: seq<seq<string>>, other: string)
    requires |orders| == |pairs|
    requires UniqueProperties(specs) && other in specs
    requires forall i :: 0 <= i < |pairs| ==> pairs[i].0 != other
    ensures var t := ApplyAllSpec(specs, pairs, s, orders);
      Read(specs[other], t.props) == Read(specs[other], s.props) &&
      (other in t.data <==> other in s.data) &&
      (other in s.data ==> t.data[other] == s.data[other])
    decreases |pairs|
  {
    if pairs != [] {
      var n := |pairs| - 1;
      var before := ApplyAllSpec(specs, pairs[..n], s, orders[..n]);
      ApplyAllFrame(specs, pairs[..n], s, orders[..n], other);
      AssignFrame(specs, pairs[n].0, pairs[n].1, before, orders[n], other);
    }
  }

  /** Every pair the bulk assignment accepted is readable afterwards, and the
      cache holds what reading it returns. */
  lemma {:induction false} ApplyAllReadable(specs: Specs, pairs: seq<(string, Value)>, s: State, orders: seq<seq<string>>)
    requires |orders| == |pairs|
    requires UniqueProperties(specs) && DistinctKeys(pairs)
    ensures var t := ApplyAllSpec(specs, pairs, s, orders);
      forall key :: key in Accepted(specs, pairs, s, orders) ==>
        key in specs && key in t.data && Ok(t.data[key]) == Read(specs[key], t.props)
    decreases |pairs|
  {
    if pairs != [] {
      var n := |pairs| - 1;
      var front := pairs[..n];
      var before := ApplyAllSpec(specs, front, s, orders[..n]);
      var t := ApplyAllSpec(specs, pairs, s, orders);
      ApplyAllReadable(specs, front, s, orders[..n]);
      forall key | key in Accepted(specs, pairs, s, orders)
        ensures key in specs && key in t.data && Ok(t.data[key]) == Read(specs[key], t.props)
      {
        if key == pairs[n].0 {
          AssignOutcome(specs, key, pairs[n].1, before, orders[n]);
        } else {
          assert key in Accepted(specs, front, s, orders[..n]);
          AssignFrame(specs, pairs[n].0, pairs[n].1, before, orders[n], key);
        }
      }
    }
  }

  /** Every field of the registry reads without error. */
  predicate AllReadable(specs: Specs, ps: Props) {
    forall k :: k in specs ==> Read(specs[k], ps).Ok?
  }

  /** The cache after synchronizing with a packet (core.py:79-81). */
  function SyncData(specs: Specs, ps: Props): (data: map<string, Value>)
    requires AllReadable(specs, ps)
    ensures data.Keys == specs.Keys
    ensures forall k :: k in specs ==> Ok(data[k]) == Read(specs[k], ps)
  {
    map k | k in specs :: Read(specs[k], ps).value
  }

  const MetadataDate := "MetadataDate"

  /** Built without a packet, the packet's MetadataDate is today's date, and
      so is its cache entry, unless the bulk assignment names that field. */
  lemma FreshMetadataDate(specs: Specs, pairs: seq<(string, Value)>, today: Date,
                          dateOrder: seq<string>, orders: seq<seq<string>>)
    requires |orders| == |pairs|
    requires MetadataDate in specs && specs[MetadataDate].kind.DateKind? && UniqueProperties(specs)
    requires forall i :: 0 <= i < |pairs| ==> pairs[i].0 != MetadataDate
    ensures var first := Assign(specs, MetadataDate, DateValue(today), State(map[], map[]), dateOrder);
      var t := ApplyAllSpec(specs, pairs, first.1, orders);
      first.0 == Ok(()) &&
      MetadataDate in t.data && t.data[MetadataDate] == DateValue(today) &&
      Read(specs[MetadataDate], t.props) == Ok(DateValue(today))
  {
    var d := specs[MetadataDate];
    var s0 := State(map[], map[]);
    var first := Assign(specs, MetadataDate, DateValue(today), s0, dateOrder);
    assert Write(d, DateValue(today), s0.props, dateOrder).result == Ok(true);
    DateRoundTrip(d, DateValue(today), s0.props, dateOrder);
    ApplyAllFrame(specs, pairs, first.1, orders, MetadataDate);
  }

  class AvmMeta {
    const specs: Specs
    var data: map<string, Value>
    var xmp: Packet

    /** The cache holds registered fields only. */
    ghost predicate Valid()
      reads this
    {
      data.Keys <= specs.Keys
    }

    function Snapshot(): State
      reads this, xmp
    {
      State(data, xmp.props)
    }

    /** The fields `__init__` sets first: an empty cache and a fresh packet
      (core.py:59-65). */
    constructor (specs: Specs)
      ensures this.specs == specs && data == map[] && fresh(xmp) && xmp.props == map[]
      ensures Valid()
    {
      this.specs := specs;
      data := map[];
      xmp := new Packet();
    }

    /** `__setitem__` (core.py:92-99). */
    method SetItem(key: string, value: Value) returns (r: Result<()>, ghost order: seq<string>)
      requires Valid()
      modifies this, xmp
      ensures Valid() && xmp == old(xmp)
      ensures (r, Snapshot()) == Assign(specs, key, value, old(Snapshot()), order)
      ensures key !in specs ==> r == Err(KeyError) && data == old(data) && xmp.props == old(xmp.props)
    {
      order := [];
      if key !in specs { return Err(KeyError), order; }
      var d := specs[key];
      var stored;
      stored, order := SetData(d, xmp, value);
      if stored.Err? { return Err(stored.error), order; }
      if stored.value {
        var x := GetData(d, xmp);
        if x.Err? { return Err(x.error), order; }
        data := data[key := x.value];
      }
      r := Ok(());
    }

    /** `__getitem__` (core.py:101-107): always read from the packet, never
      from the cache. */
    method GetItem(key: string) returns (r: Result<Value>)
      ensures r == if key in specs then Read(specs[key], xmp.props) else Err(KeyError)
    {
      if key !in specs { return Err(KeyError); }
      r := GetData(specs[key], xmp);
    }

    /** `__delitem__` (core.py:109-113): the property goes, the cache entry
      stays, and an unknown key is ignored. */
    method DelItem(key: string)
      modifies xmp
      ensures xmp.props == if key in specs then old(xmp.props) - {KeyOf(specs[key])} else old(xmp.props)
      ensures data == old(data)
      ensures key in specs ==> Read(specs[key], xmp.props) == Ok(Null)
    {
      if key in specs {
        DeleteData(specs[key], xmp);
        ReadAfterDelete(specs[key], old(xmp.props));
      }
    }

    /** Refill the cache from the packet, field by field (core.py:79-81). */
    method Synchronize() returns (r: Result<()>)
      requires Valid()
      modifies this`data
      ensures Valid()
      ensures r.Ok? <==> AllReadable(specs, xmp.props)
      ensures r.Ok? ==> data == SyncData(specs, xmp.props)
      ensures r.Err? ==> r.error == ValueError
    {
      var keys := specs.Keys;
      while keys != {}
        invariant keys <= specs.Keys
        invariant data.Keys <= specs.Keys
        invariant forall k :: k in specs.Keys - keys ==> k in data && Ok(data[k]) == Read(specs[k], xmp.props)
        decreases |keys|
      {
        var key :| key in keys;
        var x := GetData(specs[key], xmp);
        if x.Err? { return Err(x.error); }
        data := data[key := x.value];
        keys := keys - {key};
      }
      r := Ok(());
    }

    /** The bulk assignment (core.py:84-90). */
    method ApplyAll(pairs: seq<(string, Value)>) returns (ghost orders: seq<seq<string>>)
      requires Valid()
      modifies this, xmp
      ensures Valid() && xmp == old(xmp)
      ensures |orders| == |pairs|
      ensures Snapshot() == ApplyAllSpec(specs, pairs, old(Snapshot()), orders)
    {
      orders := [];
      var i := 0;
      while i < |pairs|
        invariant 0 <= i <= |pairs| && |orders| == i
        invariant Valid() && xmp == old(xmp)
        invariant Snapshot() == ApplyAllSpec(specs, pairs[..i], old(Snapshot()), orders)
      {
        var r, order := SetItem(pairs[i].0, pairs[i].1);
        assert pairs[..i + 1][..i] == pairs[..i];
        assert (orders + [order])[..i] == orders;
        orders := orders + [order];
        i := i + 1;
      }
      assert pairs[..i] == pairs;
    }

    /** `AVMMeta(avm_dict, xmp)` (core.py:57-90): write today's date as the
      MetadataDate into a fresh packet; given a packet, use it instead and
      fill the cache from it; then assign the pairs. */
    static method Create(specs: Specs, pairs: seq<(string, Value)>, packet: Option<Packet>, today: Date)
      returns (r: Result<AvmMeta>, ghost dateOrder: seq<string>, ghost orders: seq<seq<string>>)
      modifies if packet.Some? then {packet.value} else {}
      ensures var first := Assign(specs, MetadataDate, DateValue(today), State(map[], map[]), dateOrder);
        r.Ok? <==> first.0.Ok? && (packet.Some? ==> AllReadable(specs, old(packet.value.props)))
      ensures r.Err? && packet.Some? ==> packet.value.props == old(packet.value.props)
      ensures r.Ok? ==> fresh(r.value) && r.value.specs == specs && r.value.Valid() && |orders| == |pairs|
      ensures r.Ok? && packet.Some? ==> r.value.xmp == packet.value
      ensures r.Ok? && packet.None? ==> fresh(r.value.xmp)
      ensures r.Ok? ==>
        var first := Assign(specs, MetadataDate, DateValue(today), State(map[], map[]), dateOrder);
        var start := if packet.None? then first.1
                     else State(SyncData(specs, old(packet.value.props)), old(packet.value.props));
        r.value.Snapshot() == ApplyAllSpec(specs, pairs, start, orders)
    {
      orders := [];
      var m := new AvmMeta(specs);
      var dated;
      dated, dateOrder := m.SetItem(MetadataDate, DateValue(today));
      if dated.Err? { return Err(dated.error), dateOrder, orders; }
      if packet.Some? {
        m.xmp := packet.value;
        var synced := m.Synchronize();
        if synced.Err? { return Err(synced.error), dateOrder, orders; }
      }
      orders := m.ApplyAll(pairs);
      r := Ok(m);
    }
  }
}
