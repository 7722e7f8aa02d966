/**
 MessagePack to JSON (src/flb_pack.c): the recursive printer that writes into a
 bounded buffer, and the loop that enlarges the buffer until the text fits.
 Strings are plain: the escaping branches of flb_utils_write_str are not modelled,
 its space accounting is.
 */
module JsonPrint {
  import opened JsonValue
  import opened Seqs

  const SIZE_T := 0x1_0000_0000_0000_0000

  /** Every string in the value is plain. */
  predicate Unescaped(v: Value)
    decreases v
  {
    match v
    case Str(s) => PlainString(s)
    case Arr(items) => forall i :: 0 <= i < |items| ==> Unescaped(items[i])
    case Map(es) => forall i :: 0 <= i < |es| ==> UnescapedEntry(es[i])
    case _ => true
  }

  predicate UnescapedEntry(e: Entry)
    decreases e
  {
    Unescaped(e.key) && Unescaped(e.val)
  }

  // ---------------------------------------------------------------- when printing succeeds

  /**
   The first space check of a string compares the room with the offset counted twice, so a
   non-empty string is refused when that difference is 0 or 1, however much room is left.
   */
  predicate Refused(off: nat, left: nat) { 0 <= left - 2 * off < 2 }

  /** No string of the value, printed at `off`, meets that check. */
  predicate Clear(v: Value, off: nat, left: nat)
    decreases v, 1
  {
    match v
    case Str(s) => s != [] ==> !Refused(off + 1, left)
    case Arr(items) => ClearItems(items, off + 1, left)
    case Map(es) => ClearEntries(es, off + 1, left)
    case _ => true
  }

  predicate ClearItems(items: seq<Value>, off: nat, left: nat)
    decreases items, 0
  {
    items == [] ||
    (Clear(items[0], off, left) && ClearItems(items[1..], off + |Print(items[0])| + 2, left))
  }

  predicate ClearEntry(e: Entry, off: nat, left: nat)
    decreases e, 2
  {
    Clear(e.key, off, left) && Clear(e.val, off + |Print(e.key)| + 1, left)
  }

  predicate ClearEntries(es: seq<Entry>, off: nat, left: nat)
    decreases es, 0
  {
    es == [] ||
    (ClearEntry(es[0], off, left) && ClearEntries(es[1..], off + |PrintEntry(es[0])| + 2, left))
  }

  /** The offsets at which the strings of the value that are not empty start, printed at `off`. */
  function Starts(v: Value, off: nat): (os: set<nat>)
    decreases v, 1
  {
    match v
    case Str(s) => if s == [] then {} else {off + 1}
    case Arr(items) => ItemStarts(items, off + 1)
    case Map(es) => EntriesStarts(es, off + 1)
    case _ => {}
  }

  function ItemStarts(items: seq<Value>, off: nat): (os: set<nat>)
    decreases items, 0
  {
    if items == [] then {} else Starts(items[0], off) + ItemStarts(items[1..], off + |Print(items[0])| + 2)
  }

  function EntryStarts(e: Entry, off: nat): (os: set<nat>)
    decreases e, 2
  {
    Starts(e.key, off) + Starts(e.val, off + |Print(e.key)| + 1)
  }

  function EntriesStarts(es: seq<Entry>, off: nat): (os: set<nat>)
    decreases es, 0
  {
    if es == [] then {} else EntryStarts(es[0], off) + EntriesStarts(es[1..], off + |PrintEntry(es[0])| + 2)
  }

  /** One of the offsets is half of the room. */
  predicate HalfWay(os: set<nat>, left: nat) { exists o :: o in os && o == left / 2 }

  /** The check is met exactly when a string starts half way through the room. */
  lemma {:induction false} RefusedExactly(v: Value, off: nat, left: nat)
    ensures Clear(v, off, left) <==> !HalfWay(Starts(v, off), left)
    decreases v, 1
  {
    match v
    case Arr(items) => ItemsRefused(items, off + 1, left);
    case Map(es) => EntriesRefused(es, off + 1, left);
    case _ =>
  }

  lemma {:induction false} ItemsRefused(items: seq<Value>, off: nat, left: nat)
    ensures ClearItems(items, off, left) <==> !HalfWay(ItemStarts(items, off), left)
    decreases items, 0
  {
    if items != [] {
      RefusedExactly(items[0], off, left);
      ItemsRefused(items[1..], off + |Print(items[0])| + 2, left);
    }
  }

  lemma {:induction false} EntryRefused(e: Entry, off: nat, left: nat)
    ensures ClearEntry(e, off, left) <==> !HalfWay(EntryStarts(e, off), left)
    decreases e, 2
  {
    RefusedExactly(e.key, off, left);
    RefusedExactly(e.val, off + |Print(e.key)| + 1, left);
  }

  lemma {:induction false} EntriesRefused(es: seq<Entry>, off: nat, left: nat)
    ensures ClearEntries(es, off, left) <==> !HalfWay(EntriesStarts(es, off), left)
    decreases es, 0
  {
    if es != [] {
      EntryRefused(es[0], off, left);
      EntriesRefused(es[1..], off + |PrintEntry(es[0])| + 2, left);
    }
  }

  /** Twice the room the text needs is always clear. */
  lemma {:induction false} TwiceIsClear(v: Value, off: nat, left: nat)
    requires left > 2 * (off + |Print(v)|) + 1
    ensures Clear(v, off, left)
    decreases v, 1
  {
    match v
    case Arr(items) => TwiceIsClearItems(items, off + 1, left);
    case Map(es) => TwiceIsClearEntries(es, off + 1, left);
    case _ =>
  }

  lemma {:induction false} TwiceIsClearItems(items: seq<Value>, off: nat, left: nat)
    requires left > 2 * (off + |PrintItems(items)|) + 1
    ensures ClearItems(items, off, left)
    decreases items, 0
  {
    if items != [] {
      TwiceIsClear(items[0], off, left);
      if |items| > 1 {
        TwiceIsClearItems(items[1..], off + |Print(items[0])| + 2, left);
      }
    }
  }

  lemma {:induction false} TwiceIsClearEntry(e: Entry, off: nat, left: nat)
    requires left > 2 * (off + |PrintEntry(e)|) + 1
    ensures ClearEntry(e, off, left)
    decreases e, 2
  {
    TwiceIsClear(e.key, off, left);
    TwiceIsClear(e.val, off + |Print(e.key)| + 1, left);
  }

  lemma {:induction false} TwiceIsClearEntries(es: seq<Entry>, off: nat, left: nat)
    requires left > 2 * (off + |PrintEntries(es)|) + 1
    ensures ClearEntries(es, off, left)
    decreases es, 0
  {
    if es != [] {
      TwiceIsClearEntry(es[0], off, left);
      if |es| > 1 {
        TwiceIsClearEntries(es[1..], off + |PrintEntry(es[0])| + 2, left);
      }
    }
  }

  // ---------------------------------------------------------------- the printer

  /** The destination: a buffer of `left` bytes and the offset reached in it. */
  class Output {
    const buf: array<char>
    const left: nat
    var off: nat
    ghost var text: string  // what has been written

    ghost predicate Valid()
      reads this, buf
    {
      off < left <= buf.Length && left < SIZE_T / 2 && text == buf[..off]
    }

    constructor (size: nat)
      requires 0 < size < SIZE_T / 2
      ensures Valid() && fresh(buf) && left == size && text == ""
    {
      buf := new char[size](_ => '\0');
      left := size;
      off := 0;
      text := "";
    }

    method TryToWrite(str: string) returns (ok: bool)
      requires Valid()
      modifies this, buf
      ensures Valid() && (ok <==> old(off) + |str| < left)
      ensures text == if ok then old(text) + str else old(text)
    {
      if left <= off + |str| {
        return false;
      }
      for i := 0 to |str|
        invariant off == old(off) && text == old(text)
        invariant buf[..off + i] == old(buf[..off]) + str[..i]
      {
        buf[off + i] := str[i];
      }
      off := off + |str|;
      text := text + str;
      return true;
    }

    /** `flb_utils_write_str` on a plain string. */
    method WriteStr(str: string) returns (ok: bool)
      requires Valid() && PlainString(str) && str != []
      modifies this, buf
      ensures Valid() && (ok <==> old(off) + |str| < left && !Refused(old(off), left))
      ensures text == if ok then old(text) + str else old(text)
    {
      var available := left - off;
      if available <= |str| {
        return false;
      }
      var written := off;
      for i := 0 to |str|
        invariant written == if i == 0 then off else i
        invariant i > 0 ==> !Refused(off, left)
        invariant off == old(off) && text == old(text)
        invariant buf[..off + i] == old(buf[..off]) + str[..i]
      {
        if (available - written) % SIZE_T < 2 {
          WrapBelow(available, written);
          assert buf[..off] == buf[..off + i][..off];
          return false;
        }
        buf[off + i] := str[i];
        written := i + 1;
      }
      off := off + written;
      text := text + str;
      return true;
    }

    /** `msgpack2json`: fails if and only if the text does not fit or a string starts half way. */
    method Msgpack2Json(v: Value) returns (ok: bool)
      requires Valid() && Unescaped(v)
      modifies this, buf
      ensures Valid()
      ensures ok <==> old(off) + |Print(v)| < left && Clear(v, old(off), left)
      ensures ok <==> old(off) + |Print(v)| < left && !HalfWay(Starts(v, old(off)), left)
      ensures ok ==> text == old(text) + Print(v)
      decreases v, 1
    {
      RefusedExactly(v, off, left);
      match v
      case Nil => ok := TryToWrite("null");
      case Bool(b) => ok := TryToWrite(if b then "true" else "false");
      case Int(i) => ok := TryToWrite(PrintInt(i));
      case Str(s) => ok := WriteString(s);
      case Arr(items) => ok := WriteArray(items);
      case Map(es) => ok := WriteMap(es);
    }

    method WriteString(s: string) returns (ok: bool)
      requires Valid() && PlainString(s)
      modifies this, buf
      ensures Valid()
      ensures ok <==> old(off) + |s| + 2 < left && (s != [] ==> !Refused(old(off) + 1, left))
      ensures ok ==> text == old(text) + ("\"" + s + "\"")
    {
      ok := TryToWrite("\"");
      if ok && s != [] {
        ok := WriteStr(s);
      }
      if ok {
        ok := TryToWrite("\"");
      }
    }

    method WriteArray(items: seq<Value>) returns (ok: bool)
      requires Valid() && forall i :: 0 <= i < |items| ==> Unescaped(items[i])
      modifies this, buf
      ensures Valid()
      ensures ok <==> old(off) + |PrintItems(items)| + 2 < left && ClearItems(items, old(off) + 1, left)
      ensures ok ==> text == old(text) + ("[" + PrintItems(items) + "]")
      decreases items, 1
    {
      ghost var inner := PrintItems(items);
      Reassociate(text, "[", inner);
      Reassociate(text, "[" + inner, "]");
      ok := TryToWrite("[");
      if ok && items != [] {
        ok := WriteItems(items);
      }
      assert ok ==> text == old(text) + ("[" + inner);
      if ok {
        ok := TryToWrite("]");
      }
    }

    method WriteMap(es: seq<Entry>) returns (ok: bool)
      requires Valid() && forall i :: 0 <= i < |es| ==> UnescapedEntry(es[i])
      modifies this, buf
      ensures Valid()
      ensures ok <==> old(off) + |PrintEntries(es)| + 2 < left && ClearEntries(es, old(off) + 1, left)
      ensures ok ==> text == old(text) + ("{" + PrintEntries(es) + "}")
      decreases es, 1
    {
      ghost var inner := PrintEntries(es);
      Reassociate(text, "{", inner);
      Reassociate(text, "{" + inner, "}");
      ok := TryToWrite("{");
      if ok && es != [] {
        ok := WriteEntries(es);
      }
      assert ok ==> text == old(text) + ("{" + inner);
      if ok {
        ok := TryToWrite("}");
      }
    }

    /** A separator and one more item. */
    method WriteNextItem(x: Value) returns (ok: bool)
      requires Valid() && Unescaped(x)
      modifies this, buf
      ensures Valid()
      ensures ok <==> old(off) + 2 + |Print(x)| < left && Clear(x, old(off) + 2, left)
      ensures ok ==> text == old(text) + (", " + Print(x))
      decreases x, 3
    {
      Reassociate(text, ", ", Print(x));
      ok := TryToWrite(", ");
      if ok {
        ok := Msgpack2Json(x);
      }
    }

    method WriteItems(items: seq<Value>) returns (ok: bool)
      requires Valid() && items != [] && forall i :: 0 <= i < |items| ==> Unescaped(items[i])
      modifies this, buf
      ensures Valid()
      ensures ok <==> old(off) + |PrintItems(items)| < left && ClearItems(items, old(off), left)
      ensures ok ==> text == old(text) + PrintItems(items)
      decreases items, 0
    {
      FirstItems(items, off, left);
      Reassociate(text, Print(items[0]), PrintMoreItems(items[1..]));
      ok := Msgpack2Json(items[0]);
      if ok {
        ok := WriteMoreItems(items[1..]);
      }
    }

    /** One turn of the loop below: `rest` is what is still to be written. */
    method ItemTurn(ghost rest: seq<Value>, x: Value) returns (ok: bool)
      requires Valid() && rest != [] && x == rest[0] && Unescaped(x)
      modifies this, buf
      ensures Valid()
      ensures ok ==> text + PrintMoreItems(rest[1..]) == old(text) + PrintMoreItems(rest)
      ensures ok ==> (ClearMoreItems(rest, old(off), left) <==> ClearMoreItems(rest[1..], off, left))
      ensures !ok ==> !(old(off) + |PrintMoreItems(rest)| < left && ClearMoreItems(rest, old(off), left))
      decreases x, 5
    {
      SplitItems(rest, off, left);
      ok := PutItem(x, PrintMoreItems(rest), PrintMoreItems(rest[1..]), ClearMoreItems(rest, off, left),
                    ClearMoreItems(rest[1..], off + 2 + |Print(x)|, left));
    }

    /** An item out of `all`, with `more` to come; both are clear or not. */
    method PutItem(x: Value, ghost all: string, ghost more: string, ghost clear: bool, ghost moreClear: bool)
        returns (ok: bool)
      requires Valid() && Unescaped(x) && all == ", " + Print(x) + more
      requires clear <==> Clear(x, off + 2, left) && moreClear
      modifies this, buf
      ensures Valid() && (ok ==> off == old(off) + 2 + |Print(x)| && text + more == old(text) + all)
      ensures if ok then clear <==> moreClear else !(old(off) + |all| < left && clear)
      decreases x, 4
    {
      Reassociate(text, ", " + Print(x), more);
      ok := WriteNextItem(x);
    }

    /** The loop over the items after the first. */
    method WriteMoreItems(items: seq<Value>) returns (ok: bool)
      requires Valid() && forall i :: 0 <= i < |items| ==> Unescaped(items[i])
      modifies this, buf
      ensures Valid()
      ensures ok <==> old(off) + |PrintMoreItems(items)| < left && ClearMoreItems(items, old(off), left)
      ensures ok ==> text == old(text) + PrintMoreItems(items)
      decreases items, 5
    {
      ghost var whole := text + PrintMoreItems(items);
      assert items[0..] == items;
      var i := 0;
      while i < |items|
        invariant Valid() && 0 <= i <= |items|
        invariant text + PrintMoreItems(items[i..]) == whole
        invariant ClearMoreItems(items, old(off), left) <==> ClearMoreItems(items[i..], off, left)
      {
        ghost var rest := items[i..];
        assert rest[0] == items[i] && rest[1..] == items[i + 1..];
        assert off + |PrintMoreItems(rest)| == |whole|;
        ok := ItemTurn(rest, items[i]);
        if !ok {
          return;
        }
        i := i + 1;
      }
      assert items[i..] == [];
      return true;
    }

    method WriteEntry(e: Entry) returns (ok: bool)
      requires Valid() && UnescapedEntry(e)
      modifies this, buf
      ensures Valid()
      ensures ok <==> old(off) + |PrintEntry(e)| < left && ClearEntry(e, old(off), left)
      ensures ok ==> text == old(text) + PrintEntry(e)
      decreases e, 2
    {
      ghost var key := Print(e.key) + ":";
      Reassociate(text, key, Print(e.val));
      ok := WriteKey(e.key);
      if ok {
        ok := Msgpack2Json(e.val);
      }
    }

    method WriteKey(k: Value) returns (ok: bool)
      requires Valid() && Unescaped(k)
      modifies this, buf
      ensures Valid()
      ensures ok <==> old(off) + |Print(k)| + 1 < left && Clear(k, old(off), left)
      ensures ok ==> text == old(text) + (Print(k) + ":")
      decreases k, 2
    {
      Reassociate(text, Print(k), ":");
      ok := Msgpack2Json(k);
      if ok {
        ok := TryToWrite(":");
      }
    }

    /** A separator and one more entry. */
    method WriteNextEntry(x: Entry) returns (ok: bool)
      requires Valid() && UnescapedEntry(x)
      modifies this, buf
      ensures Valid()
      ensures ok <==> old(off) + 2 + |PrintEntry(x)| < left && ClearEntry(x, old(off) + 2, left)
      ensures ok ==> text == old(text) + (", " + PrintEntry(x))
      decreases x, 3
    {
      Reassociate(text, ", ", PrintEntry(x));
      ok := TryToWrite(", ");
      if ok {
        ok := WriteEntry(x);
      }
    }

    method WriteEntries(es: seq<Entry>) returns (ok: bool)
      requires Valid() && es != [] && forall i :: 0 <= i < |es| ==> UnescapedEntry(es[i])
      modifies this, buf
      ensures Valid()
      ensures ok <==> old(off) + |PrintEntries(es)| < left && ClearEntries(es, old(off), left)
      ensures ok ==> text == old(text) + PrintEntries(es)
      decreases es, 0
    {
      FirstEntries(es, off, left);
      Reassociate(text, PrintEntry(es[0]), PrintMoreEntries(es[1..]));
      ok := WriteEntry(es[0]);
      if ok {
        ok := WriteMoreEntries(es[1..]);
      }
    }

    /** One turn of the loop below: `rest` is what is still to be written. */
    method EntryTurn(ghost rest: seq<Entry>, x: Entry) returns (ok: bool)
      requires Valid() && rest != [] && x == rest[0] && UnescapedEntry(x)
      modifies this, buf
      ensures Valid()
      ensures ok ==> text + PrintMoreEntries(rest[1..]) == old(text) + PrintMoreEntries(rest)
      ensures ok ==> (ClearMoreEntries(rest, old(off), left) <==> ClearMoreEntries(rest[1..], off, left))
      ensures !ok ==> !(old(off) + |PrintMoreEntries(rest)| < left && ClearMoreEntries(rest, old(off), left))
      decreases x, 5
    {
      SplitEntries(rest, off, left);
      ok := PutEntry(x, PrintMoreEntries(rest), PrintMoreEntries(rest[1..]), ClearMoreEntries(rest, off, left),
                     ClearMoreEntries(rest[1..], off + 2 + |PrintEntry(x)|, left));
    }

    /** An entry out of `all`, with `more` to come; both are clear or not. */
    method PutEntry(x: Entry, ghost all: string, ghost more: string, ghost clear: bool, ghost moreClear: bool)
        returns (ok: bool)
      requires Valid() && UnescapedEntry(x) && all == ", " + PrintEntry(x) + more
      requires clear <==> ClearEntry(x, off + 2, left) && moreClear
      modifies this, buf
      ensures Valid() && (ok ==> off == old(off) + 2 + |PrintEntry(x)| && text + more == old(text) + all)
      ensures if ok then clear <==> moreClear else !(old(off) + |all| < left && clear)
      decreases x, 4
    {
      Reassociate(text, ", " + PrintEntry(x), more);
      ok := WriteNextEntry(x);
    }

    /** The loop over the entries after the first. */
    method WriteMoreEntries(es: seq<Entry>) returns (ok: bool)
      requires Valid() && forall i :: 0 <= i < |es| ==> UnescapedEntry(es[i])
      modifies this, buf
      ensures Valid()
      ensures ok <==> old(off) + |PrintMoreEntries(es)| < left && ClearMoreEntries(es, old(off), left)
      ensures ok ==> text == old(text) + PrintMoreEntries(es)
      decreases es, 5
    {
      ghost var whole := text + PrintMoreEntries(es);
      assert es[0..] == es;
      var i := 0;
      while i < |es|
        invariant Valid() && 0 <= i <= |es|
        invariant text + PrintMoreEntries(es[i..]) == whole
        invariant ClearMoreEntries(es, old(off), left) <==> ClearMoreEntries(es[i..], off, left)
      {
        ghost var rest := es[i..];
        assert rest[0] == es[i] && rest[1..] == es[i + 1..];
        assert off + |PrintMoreEntries(rest)| == |whole|;
        ok := EntryTurn(rest, es[i]);
        if !ok {
          return;
        }
        i := i + 1;
      }
      assert es[i..] == [];
      return true;
    }
  }

  predicate ClearMoreItems(items: seq<Value>, off: nat, left: nat) {
    items == [] || ClearItems(items, off + 2, left)
  }

  lemma ClearRest(items: seq<Value>, off: nat, left: nat)
    ensures ClearMoreItems(items, off, left) <==> ClearItems(items, off + 2, left)
  {
  }

  lemma FirstItems(items: seq<Value>, off: nat, left: nat)
    requires items != []
    ensures PrintItems(items) == Print(items[0]) + PrintMoreItems(items[1..])
    ensures ClearItems(items, off, left) <==>
            Clear(items[0], off, left) && ClearMoreItems(items[1..], off + |Print(items[0])|, left)
  {
    ClearRest(items[1..], off + |Print(items[0])|, left);
  }

  lemma SplitItems(items: seq<Value>, off: nat, left: nat)
    requires items != []
    ensures PrintMoreItems(items) == ", " + Print(items[0]) + PrintMoreItems(items[1..])
    ensures ClearMoreItems(items, off, left) <==>
            Clear(items[0], off + 2, left) &&
            ClearMoreItems(items[1..], off + 2 + |Print(items[0])|, left)
  {
    assert ", " + (Print(items[0]) + PrintMoreItems(items[1..])) ==
           ", " + Print(items[0]) + PrintMoreItems(items[1..]);
    if |items| == 1 {
      assert ClearItems(items[1..], off + 2 + |Print(items[0])| + 2, left);
    }
  }

  predicate ClearMoreEntries(es: seq<Entry>, off: nat, left: nat) {
    es == [] || ClearEntries(es, off + 2, left)
  }

  lemma FirstEntries(es: seq<Entry>, off: nat, left: nat)
    requires es != []
    ensures PrintEntries(es) == PrintEntry(es[0]) + PrintMoreEntries(es[1..])
    ensures ClearEntries(es, off, left) <==>
            ClearEntry(es[0], off, left) && ClearMoreEntries(es[1..], off + |PrintEntry(es[0])|, left)
  {
    if |es| == 1 {
      assert ClearEntries(es[1..], off + |PrintEntry(es[0])| + 2, left);
    }
  }

  lemma SplitEntries(es: seq<Entry>, off: nat, left: nat)
    requires es != []
    ensures PrintMoreEntries(es) == ", " + PrintEntry(es[0]) + PrintMoreEntries(es[1..])
    ensures ClearMoreEntries(es, off, left) <==>
            ClearEntry(es[0], off + 2, left) &&
            ClearMoreEntries(es[1..], off + 2 + |PrintEntry(es[0])|, left)
  {
    assert ", " + (PrintEntry(es[0]) + PrintMoreEntries(es[1..])) ==
           ", " + PrintEntry(es[0]) + PrintMoreEntries(es[1..]);
    if |es| == 1 {
      assert ClearEntries(es[1..], off + 2 + |PrintEntry(es[0])| + 2, left);
    }
  }

  lemma WrapBelow(a: nat, b: nat)
    requires a < SIZE_T / 2 && b < SIZE_T / 2
    ensures (a - b) % SIZE_T < 2 <==> 0 <= a - b < 2
  {
  }

  /** `flb_msgpack_to_json_str`: starting from any size, ends with exactly the text. */
  method ToJsonStr(size: nat, v: Value) returns (s: string)
    requires Unescaped(v) && 2 * |Print(v)| + 256 + size < SIZE_T / 2
    ensures s == Print(v)
  {
    var n := if size <= 0 then 128 else size;
    while true
      invariant 0 < n < SIZE_T / 2
      decreases 2 * |Print(v)| + 2 - n
    {
      var out := new Output(n);
      var ok := out.Msgpack2Json(v);
      if ok {
        return out.buf[..out.off];
      }
      if n > 2 * |Print(v)| + 1 {
        TwiceIsClear(v, 0, n);
        assert false;
      }
      n := n + 128;
    }
  }

  /** The array of 12 and "a" is nine characters long: it is printed in 11 bytes of room and refused in 12. */
  method FitsButRefused() returns (small: bool, large: bool)
    ensures small && !large
  {
    var v := Arr([Int(12), Str("a")]);
    SmallArray();
    var out := new Output(11);
    small := out.Msgpack2Json(v);
    out := new Output(12);
    large := out.Msgpack2Json(v);
  }

  lemma SmallArray()
    ensures var v := Arr([Int(12), Str("a")]);
            |Print(v)| == 9 && Starts(v, 0) == {6} && Unescaped(v)
  {
    var items := [Int(12), Str("a")];
    assert items[1..] == [Str("a")] && items[1..][1..] == [];
    assert |PrintInt(12)| == 2;
    assert PrintItems(items[1..]) == Print(Str("a")) + "";
  }
}
