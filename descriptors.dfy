/** The descriptor operations as the original runs them: the list checks
    build `checked_data` element by element, `set_data` deletes and appends
    item by item, and the list `get_data` collects items 1..count. Each
    method is proved to compute the specification function of `Datatypes`. */
module Descriptors {
  import opened Values
  import opened Xmp
  import opened Datatypes
  import IsoDate

  /** An error in a prefix of the elements is the error of the whole list. */
  lemma {:induction false} PrefixError(e: Elem, xs: seq<Value>, n: nat)
    requires n <= |xs| && CheckElements(e, xs[..n]).Err?
    ensures CheckElements(e, xs) == CheckElements(e, xs[..n])
    decreases |xs| - n
  {
    if n < |xs| {
      var front := xs[..|xs| - 1];
      assert front[..n] == xs[..n];
      PrefixError(e, front, n);
    } else {
      assert xs[..n] == xs;
    }
  }

  /** `check_data` of every kind; the list kinds loop over their elements
      (datatypes.py:451-457, 510-517, 578-587, 614-620). */
  method CheckData(k: Kind, v: Value) returns (r: Result<Value>)
    ensures r == Check(k, v)
  {
    match k
    case UnorderedStringList(rule) =>
      if !v.Set? { return Err(TypeError); }
      if !LengthOk(rule, |v.members|) { return Err(ListLengthError); }
      var checked: set<Value> := {};
      var rest := v.members;
      while rest != {}
        invariant rest <= v.members
        invariant checked == v.members - rest
        invariant forall x :: x in checked ==> x.Str?
        decreases |rest|
      {
        var x :| x in rest;
        if !x.Str? { return Err(TypeError); }
        checked := checked + {x};
        rest := rest - {x};
      }
      assert checked == v.members;
      return Ok(Set(checked));
    case OrderedList(e, rule) =>
      if !v.List? { return Err(TypeError); }
      if !LengthOk(rule, |v.items|) { return Err(ListLengthError); }
      var checked: seq<Value> := [];
      var i := 0;
      while i < |v.items|
        invariant 0 <= i <= |v.items|
        invariant CheckElements(e, v.items[..i]) == Ok(checked)
      {
        var y := CheckElement(e, v.items[i]);
        assert v.items[..i + 1][..i] == v.items[..i];
        if y.Err? {
          PrefixError(e, v.items, i + 1);
          return Err(y.error);
        }
        checked := checked + [y.value];
        i := i + 1;
      }
      assert v.items[..i] == v.items;
      return Ok(List(checked));
    case StringKind => r := Check(k, v);
    case StringCV(_, _) => r := Check(k, v);
    case Url => r := Check(k, v);
    case Email => r := Check(k, v);
    case LocalizedString(_, _) => r := Check(k, v);
    case FloatKind => r := Check(k, v);
    case DateKind => r := Check(k, v);
  }

  lemma TextSetSnoc(ts: seq<string>, t: string)
    ensures TextSet(ts + [t]) == TextSet(ts) + {Str(t)}
  {
    assert t in ts + [t];
    forall x | x in TextSet(ts + [t]) ensures x in TextSet(ts) + {Str(t)} {
      var u :| u in ts + [t] && x == Str(u);
      if u != t { assert u in ts; }
    }
  }

  /** `get_data`; the list kinds read items 1..count
      (datatypes.py:417-429, 527-539, 631-644); the others read the
      property's text, or the localized text (datatypes.py:89-97, 292-298,
      320-330, 662-670). */
  method GetData(d: Descriptor, p: Packet) returns (r: Result<Value>)
    ensures r == Read(d, p.props)
  {
    var k := KeyOf(d);
    match d.kind
    case UnorderedStringList(_) =>
      var n := p.CountArrayItems(d.ns, d.path);
      if n == 0 { return Ok(Null); }
      ghost var all := ArrayItems(p.props, k);
      var items: set<Value> := {};
      var i := 1;
      while i <= n
        invariant 1 <= i <= n + 1
        invariant items == TextSet(all[..i - 1])
      {
        var t := p.GetArrayItem(d.ns, d.path, i);
        assert all[..i] == all[..i - 1] + [t];
        TextSetSnoc(all[..i - 1], t);
        items := items + {Str(t)};
        i := i + 1;
      }
      assert all[..n] == all;
      return Ok(Set(items));
    case OrderedList(e, _) =>
      var n := p.CountArrayItems(d.ns, d.path);
      if n == 0 { return Ok(Null); }
      ghost var all := ArrayItems(p.props, k);
      var items: seq<Value> := [];
      var i := 1;
      while i <= n
        invariant 1 <= i <= n + 1
        invariant |items| == i - 1
        invariant forall j :: 0 <= j < i - 1 ==> items[j] == ReadItem(e, all[j])
      {
        var t := p.GetArrayItem(d.ns, d.path, i);
        items := items + [ReadItem(e, t)];
        i := i + 1;
      }
      assert items == ReadItems(e, all);
      return Ok(List(items));
    case LocalizedString(g, sp) =>
      var t := p.GetLocalizedText(d.ns, d.path, g, sp);
      r := Ok(if t.None? then Null else Str(t.value));
    case FloatKind =>
      var t := p.GetProperty(d.ns, d.path);
      r := Ok(if t.None? || t.value == "" then Null else Float(t.value));
    case DateKind =>
      var t := p.GetProperty(d.ns, d.path);
      if t.None? || t.value == "" {
        r := Ok(Null);
      } else {
        var date := IsoDate.Parse(t.value);
        r := if date.None? then Err(ValueError) else Ok(DateValue(date.value));
      }
    case _ =>
      var t := p.GetProperty(d.ns, d.path);
      r := Ok(if t.None? || t.value == "" then Null else Str(t.value));
  }

  /** `delete_data`. */
  method DeleteData(d: Descriptor, p: Packet)
    modifies p
    ensures p.props == old(p.props) - {KeyOf(d)}
  {
    p.DeleteProperty(d.ns, d.path);
  }

  /** The append loop of a list's `set_data` (datatypes.py:403-409, 483-489). */
  method AppendItems(p: Packet, ns: string, path: string, texts: seq<string>, ordered: bool)
    returns (ok: bool)
    modifies p
    ensures (ok, p.props) == AppendAll(old(p.props), Key(ns, path), texts, ordered)
  {
    var k := Key(ns, path);
    var i := 0;
    while i < |texts|
      invariant 0 <= i <= |texts|
      invariant AppendAll(old(p.props), k, texts, ordered) == AppendAll(p.props, k, texts[i..], ordered)
    {
      var appended := p.AppendArrayItem(ns, path, texts[i], ordered);
      if !appended { return false; }
      assert texts[i..][1..] == texts[i + 1..];
      i := i + 1;
    }
    return true;
  }

  /** The order in which a loop over a Python set of strings visits it. */
  method SetOrder(c: Value) returns (order: seq<string>)
    requires c.Set? && forall x :: x in c.members ==> x.Str?
    ensures Enumerates(order, SetTexts(c))
  {
    order := [];
    var rest := c.members;
    while rest != {}
      invariant rest <= c.members
      invariant forall x :: x in c.members - rest ==> x.s in order
      invariant forall i :: 0 <= i < |order| ==> order[i] in SetTexts(c) && Str(order[i]) !in rest
      invariant forall i, j :: 0 <= i < j < |order| ==> order[i] != order[j]
      decreases |rest|
    {
      var x :| x in rest;
      assert x == Str(x.s);
      order := order + [x.s];
      rest := rest - {x};
    }
    forall t | t in SetTexts(c) ensures t in order {
      var x :| x in c.members && x.Str? && x.s == t;
    }
  }

  /** `set_data` of every kind. For an unordered list `order` is the order in
      which the set was visited. */
  method SetData(d: Descriptor, p: Packet, v: Value) returns (r: Result<bool>, ghost order: seq<string>)
    modifies p
    ensures WriteOutcome(r, p.props) == Write(d, v, old(p.props), order)
    ensures Check(d.kind, v).Ok? && d.kind.UnorderedStringList? ==>
      Enumerates(order, SetTexts(Check(d.kind, v).value))
  {
    order := [];
    var c := CheckData(d.kind, v);
    if c.Err? { return Err(c.error), order; }
    var checked := c.value;
    match d.kind
    case UnorderedStringList(rule) =>
      if rule.strict { DeleteData(d, p); }
      var texts := SetOrder(checked);
      order := texts;
      var ok := AppendItems(p, d.ns, d.path, texts, false);
      r := Ok(ok);
    case OrderedList(_, rule) =>
      if rule.strict { DeleteData(d, p); }
      var ok := AppendItems(p, d.ns, d.path, Texts(checked.items), true);
      r := Ok(ok);
    case LocalizedString(g, sp) =>
      var ok := p.SetLocalizedText(d.ns, d.path, g, sp, checked.s);
      r := Ok(ok);
    case StringKind =>
      var ok := p.SetProperty(d.ns, d.path, checked.s);
      r := Ok(ok);
    case StringCV(_, _) =>
      var ok := p.SetProperty(d.ns, d.path, checked.s);
      r := Ok(ok);
    case Url =>
      var ok := p.SetProperty(d.ns, d.path, checked.s);
      r := Ok(ok);
    case Email =>
      var ok := p.SetProperty(d.ns, d.path, checked.s);
      r := Ok(ok);
    case FloatKind =>
      var ok := p.SetProperty(d.ns, d.path, StrOf(checked));
      r := Ok(ok);
    case DateKind =>
      var ok := p.SetProperty(d.ns, d.path, StrOf(checked));
      r := Ok(ok);
  }
}
