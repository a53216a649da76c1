/** The XMP packet (`libxmp.XMPMeta`) as the descriptors use it: a store of
    properties keyed by namespace and path. A property is a simple text, an
    array of texts (a `seq` or a `bag`), or an alternative-text array of
    localized texts. A write fails when the property already exists with a
    shape the write cannot extend. */
module Xmp {
  import opened Values

  datatype Key = Key(ns: string, path: string)

  datatype Prop =
    | Simple(text: string)
    | Array(items: seq<string>, ordered: bool)
    | AltText(texts: map<(string, string), string>)

  type Props = map<Key, Prop>

  /** The text of a simple property; an array has no text of its own. */
  function PropertyText(ps: Props, k: Key): Option<string> {
    if k in ps && ps[k].Simple? then Some(ps[k].text) else None
  }

  /** The items of an array property, none when there is no array. */
  function ArrayItems(ps: Props, k: Key): seq<string> {
    if k in ps && ps[k].Array? then ps[k].items else []
  }

  function LocalizedText(ps: Props, k: Key, generic: string, specific: string): Option<string> {
    if k in ps && ps[k].AltText? && (generic, specific) in ps[k].texts
    then Some(ps[k].texts[(generic, specific)])
    else None
  }

  // ---- Effects of the writes: whether the write succeeded, and the new store ----

  predicate CanSetProperty(ps: Props, k: Key) { k !in ps || ps[k].Simple? }

  function SetPropertyEffect(ps: Props, k: Key, text: string): (bool, Props) {
    if CanSetProperty(ps, k) then (true, ps[k := Simple(text)]) else (false, ps)
  }

  /** An item can be appended to a missing property, which creates the array,
      or to an array of the same form. */
  predicate CanAppend(ps: Props, k: Key, ordered: bool) {
    k !in ps || (ps[k].Array? && ps[k].ordered == ordered)
  }

  function AppendEffect(ps: Props, k: Key, text: string, ordered: bool): (bool, Props) {
    if CanAppend(ps, k, ordered) then (true, ps[k := Array(ArrayItems(ps, k) + [text], ordered)])
    else (false, ps)
  }

  predicate CanSetLocalized(ps: Props, k: Key) { k !in ps || ps[k].AltText? }

  function SetLocalizedEffect(ps: Props, k: Key, generic: string, specific: string, text: string): (bool, Props) {
    if CanSetLocalized(ps, k) then
      var texts := if k in ps then ps[k].texts else map[];
      (true, ps[k := AltText(texts[(generic, specific) := text])])
    else (false, ps)
  }

  class Packet {
    var props: Props

    /** `libxmp.XMPMeta()`: an empty packet. */
    constructor ()
      ensures props == map[]
    {
      props := map[];
    }

    function GetProperty(ns: string, path: string): (r: Option<string>)
      reads this
      ensures r.Some? <==> Key(ns, path) in props && props[Key(ns, path)].Simple?
    {
      PropertyText(props, Key(ns, path))
    }

    function CountArrayItems(ns: string, path: string): (n: nat)
      reads this
      ensures n == |ArrayItems(props, Key(ns, path))|
    {
      |ArrayItems(props, Key(ns, path))|
    }

    /** The `i`-th item of an array, counting from 1. */
    function GetArrayItem(ns: string, path: string, i: nat): (r: string)
      reads this
      requires 1 <= i <= CountArrayItems(ns, path)
      ensures r == ArrayItems(props, Key(ns, path))[i - 1]
    {
      props[Key(ns, path)].items[i - 1]
    }

    function GetLocalizedText(ns: string, path: string, generic: string, specific: string): (r: Option<string>)
      reads this
      ensures r.Some? ==> Key(ns, path) in props && props[Key(ns, path)].AltText?
    {
      LocalizedText(props, Key(ns, path), generic, specific)
    }

    method SetProperty(ns: string, path: string, text: string) returns (ok: bool)
      modifies this
      ensures (ok, props) == SetPropertyEffect(old(props), Key(ns, path), text)
    {
      var k := Key(ns, path);
      ok := CanSetProperty(props, k);
      if ok { props := props[k := Simple(text)]; }
    }

    method AppendArrayItem(ns: string, path: string, text: string, ordered: bool) returns (ok: bool)
      modifies this
      ensures (ok, props) == AppendEffect(old(props), Key(ns, path), text, ordered)
    {
      var k := Key(ns, path);
      ok := CanAppend(props, k, ordered);
      if ok { props := props[k := Array(ArrayItems(props, k) + [text], ordered)]; }
    }

    method SetLocalizedText(ns: string, path: string, generic: string, specific: string, text: string)
      returns (ok: bool)
      modifies this
      ensures (ok, props) == SetLocalizedEffect(old(props), Key(ns, path), generic, specific, text)
    {
      var k := Key(ns, path);
      ok := CanSetLocalized(props, k);
      if ok {
        var texts := if k in props then props[k].texts else map[];
        props := props[k := AltText(texts[(generic, specific) := text])];
      }
    }

    method DeleteProperty(ns: string, path: string)
      modifies this
      ensures props == old(props) - {Key(ns, path)}
    {
      props := props - {Key(ns, path)};
    }
  }
}
