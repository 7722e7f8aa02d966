/**
 The values both text formats carry: their JSON text as `msgpack2json` writes it
 (src/flb_pack.c) and their MessagePack encoding, as the preorder sequence of
 calls a packer receives.
 */
module JsonValue {
  import opened Decimal

  datatype Value =
    | Nil
    | Bool(b: bool)
    | Int(i: int)
    | Str(s: string)
    | Arr(items: seq<Value>)
    | Map(entries: seq<Entry>)

  datatype Entry = Entry(key: Value, val: Value)

  const INT64_MIN := -0x8000_0000_0000_0000
  const INT64_MAX := 0x7fff_ffff_ffff_ffff
  const UINT64_MAX := 0xffff_ffff_ffff_ffff

  // ---------------------------------------------------------------- JSON text

  function PrintInt(i: int): (s: string)
    ensures |s| >= 1
  {
    if i < 0 then "-" + Dec(-i) else Dec(i)
  }

  function Print(v: Value): (s: string)
    ensures |s| >= 1
    decreases v, 1
  {
    match v
    case Nil => "null"
    case Bool(b) => if b then "true" else "false"
    case Int(i) => PrintInt(i)
    case Str(s) => "\"" + s + "\""
    case Arr(items) => "[" + PrintItems(items) + "]"
    case Map(entries) => "{" + PrintEntries(entries) + "}"
  }

  function PrintItems(items: seq<Value>): (s: string)
    decreases items, 0
  {
    if items == [] then "" else Print(items[0]) + PrintMoreItems(items[1..])
  }

  /** The items after the first, each with its separator. */
  function PrintMoreItems(items: seq<Value>): (s: string)
    decreases items, 1
  {
    if items == [] then "" else ", " + PrintItems(items)
  }

  function PrintEntry(e: Entry): (s: string)
    decreases e, 2
  {
    Print(e.key) + ":" + Print(e.val)
  }

  function PrintEntries(es: seq<Entry>): (s: string)
    decreases es, 0
  {
    if es == [] then "" else PrintEntry(es[0]) + PrintMoreEntries(es[1..])
  }

  function PrintMoreEntries(es: seq<Entry>): (s: string)
    decreases es, 1
  {
    if es == [] then "" else ", " + PrintEntries(es)
  }

  // ---------------------------------------------------------------- MessagePack

  /** What a packer is asked to write; a double is kept as the text it was read from. */
  datatype Event =
    | PackNil
    | PackBool(b: bool)
    | PackInt(i: int)
    | PackDouble(text: string)
    | PackStr(s: string)
    | PackArray(n: nat)
    | PackMap(n: nat)

  function Encode(v: Value): (ev: seq<Event>)
    ensures |ev| >= 1
    decreases v, 1
  {
    match v
    case Nil => [PackNil]
    case Bool(b) => [PackBool(b)]
    case Int(i) => [PackInt(i)]
    case Str(s) => [PackStr(s)]
    case Arr(items) => [PackArray(|items|)] + EncodeItems(items)
    case Map(entries) => [PackMap(|entries|)] + EncodeEntries(entries)
  }

  function EncodeItems(items: seq<Value>): (ev: seq<Event>)
    decreases items, 0
  {
    if items == [] then [] else Encode(items[0]) + EncodeItems(items[1..])
  }

  function EncodeEntries(es: seq<Entry>): (ev: seq<Event>)
    decreases es, 0
  {
    if es == [] then [] else EncodeEntry(es[0]) + EncodeEntries(es[1..])
  }

  function EncodeEntry(e: Entry): (ev: seq<Event>)
    decreases e, 2
  {
    Encode(e.key) + Encode(e.val)
  }

  // ---------------------------------------------------------------- reading it back

  datatype Decoded<T> = Fail | Got(value: T, rest: seq<Event>)

  function Decode(ev: seq<Event>): (d: Decoded<Value>)
    ensures d.Got? ==> |d.rest| < |ev|
    decreases |ev|, 0
  {
    if ev == [] then Fail
    else
      match ev[0]
      case PackNil => Got(Nil, ev[1..])
      case PackBool(b) => Got(Bool(b), ev[1..])
      case PackInt(i) => Got(Int(i), ev[1..])
      case PackDouble(_) => Fail
      case PackStr(s) => Got(Str(s), ev[1..])
      case PackArray(n) =>
        var d := DecodeItems(n, ev[1..]);
        if d.Fail? then Fail else Got(Arr(d.value), d.rest)
      case PackMap(n) =>
        var d := DecodeEntries(n, ev[1..]);
        if d.Fail? then Fail else Got(Map(d.value), d.rest)
  }

  function DecodeItems(n: nat, ev: seq<Event>): (d: Decoded<seq<Value>>)
    ensures d.Got? ==> |d.rest| <= |ev|
    decreases |ev|, n + 1
  {
    if n == 0 then Got([], ev)
    else
      var h := Decode(ev);
      if h.Fail? then Fail
      else
        var t := DecodeItems(n - 1, h.rest);
        if t.Fail? then Fail else Got([h.value] + t.value, t.rest)
  }

  function DecodeEntries(n: nat, ev: seq<Event>): (d: Decoded<seq<Entry>>)
    ensures d.Got? ==> |d.rest| <= |ev|
    decreases |ev|, n + 1
  {
    if n == 0 then Got([], ev)
    else
      var k := Decode(ev);
      if k.Fail? then Fail
      else
        var v := Decode(k.rest);
        if v.Fail? then Fail
        else
          var t := DecodeEntries(n - 1, v.rest);
          if t.Fail? then Fail else Got([Entry(k.value, v.value)] + t.value, t.rest)
  }

  /** The encoding of a value determines it, whatever follows. */
  lemma {:induction false} DecodeEncode(v: Value, rest: seq<Event>)
    ensures Decode(Encode(v) + rest) == Got(v, rest)
    decreases v, 1
  {
    assert (Encode(v) + rest)[1..] == Encode(v)[1..] + rest;
    match v
    case Arr(items) =>
      assert Encode(v)[1..] == EncodeItems(items);
      DecodeEncodeItems(items, rest);
    case Map(entries) =>
      assert Encode(v)[1..] == EncodeEntries(entries);
      DecodeEncodeEntries(entries, rest);
    case _ =>
      assert Encode(v)[1..] + rest == rest;
  }

  lemma {:induction false} DecodeEncodeItems(items: seq<Value>, rest: seq<Event>)
    ensures DecodeItems(|items|, EncodeItems(items) + rest) == Got(items, rest)
    decreases items, 0
  {
    if items != [] {
      var tail := EncodeItems(items[1..]) + rest;
      assert EncodeItems(items) + rest == Encode(items[0]) + tail;
      DecodeEncode(items[0], tail);
      DecodeEncodeItems(items[1..], rest);
      assert [items[0]] + items[1..] == items;
    } else {
      assert EncodeItems(items) + rest == rest;
    }
  }

  lemma {:induction false} DecodeEncodeEntry(e: Entry, tail: seq<Event>)
    ensures Decode(EncodeEntry(e) + tail) == Got(e.key, Encode(e.val) + tail)
    ensures Decode(Encode(e.val) + tail) == Got(e.val, tail)
    decreases e, 2
  {
    assert EncodeEntry(e) + tail == Encode(e.key) + (Encode(e.val) + tail);
    DecodeEncode(e.key, Encode(e.val) + tail);
    DecodeEncode(e.val, tail);
  }

  lemma {:induction false} DecodeEncodeEntries(es: seq<Entry>, rest: seq<Event>)
    ensures DecodeEntries(|es|, EncodeEntries(es) + rest) == Got(es, rest)
    decreases es, 0
  {
    if es != [] {
      var tail := EncodeEntries(es[1..]) + rest;
      assert EncodeEntries(es) + rest == EncodeEntry(es[0]) + tail;
      DecodeEncodeEntry(es[0], tail);
      DecodeEncodeEntries(es[1..], rest);
      assert [es[0]] + es[1..] == es;
    } else {
      assert EncodeEntries(es) + rest == rest;
    }
  }

  lemma EncodeInjective(a: Value, b: Value)
    requires Encode(a) == Encode(b)
    ensures a == b
  {
    DecodeEncode(a, []);
    DecodeEncode(b, []);
  }

  // ---------------------------------------------------------------- which values

  predicate PlainString(s: string) {
    forall i :: 0 <= i < |s| ==> 32 <= s[i] as int < 127 && s[i] != '"' && s[i] != '\\'
  }

  /** Plain strings only, string keys only, integers that fit a MessagePack integer. */
  predicate Plain(v: Value)
    decreases v
  {
    match v
    case Nil => true
    case Bool(_) => true
    case Int(i) => INT64_MIN <= i <= UINT64_MAX
    case Str(s) => PlainString(s)
    case Arr(items) => forall i :: 0 <= i < |items| ==> Plain(items[i])
    case Map(es) => forall i :: 0 <= i < |es| ==> es[i].key.Str? && Plain(es[i].key) && Plain(es[i].val)
  }

  function Clamp(i: int): (r: int)
    ensures INT64_MIN <= r <= INT64_MAX
    ensures INT64_MIN <= i <= INT64_MAX <==> r == i
  {
    if i > INT64_MAX then INT64_MAX else if i < INT64_MIN then INT64_MIN else i
  }

  /** The value with every integer brought into the range of a signed 64-bit one. */
  function Saturate(v: Value): (r: Value)
    decreases v
  {
    match v
    case Int(i) => Int(Clamp(i))
    case Arr(items) => Arr(seq(|items|, i requires 0 <= i < |items| => Saturate(items[i])))
    case Map(es) =>
      Map(seq(|es|, i requires 0 <= i < |es| => Entry(Saturate(es[i].key), Saturate(es[i].val))))
    case _ => v
  }

  predicate IntsFit(v: Value)
    decreases v
  {
    match v
    case Int(i) => INT64_MIN <= i <= INT64_MAX
    case Arr(items) => forall i :: 0 <= i < |items| ==> IntsFit(items[i])
    case Map(es) => forall i :: 0 <= i < |es| ==> IntsFit(es[i].key) && IntsFit(es[i].val)
    case _ => true
  }

  lemma {:induction false} SaturateFixes(v: Value)
    ensures Saturate(v) == v <==> IntsFit(v)
    decreases v
  {
    match v
    case Arr(items) =>
      forall i | 0 <= i < |items| ensures Saturate(items[i]) == items[i] <==> IntsFit(items[i]) {
        SaturateFixes(items[i]);
      }
      if Saturate(v) == v {
        forall i | 0 <= i < |items| ensures IntsFit(items[i]) {
          assert Saturate(v).items[i] == Saturate(items[i]);
        }
      } else {
        assert Saturate(v).items != items;
      }
    case Map(es) =>
      forall i | 0 <= i < |es|
        ensures Saturate(es[i].key) == es[i].key <==> IntsFit(es[i].key)
        ensures Saturate(es[i].val) == es[i].val <==> IntsFit(es[i].val)
      {
        SaturateFixes(es[i].key);
        SaturateFixes(es[i].val);
      }
      if Saturate(v) == v {
        forall i | 0 <= i < |es| ensures IntsFit(es[i].key) && IntsFit(es[i].val) {
          assert Saturate(v).entries[i] == Entry(Saturate(es[i].key), Saturate(es[i].val));
        }
      } else {
        assert Saturate(v).entries != es;
      }
    case _ =>
  }
}
