/** Undoing the decoder's representation of stored values: maps, wide integers and buffers. */
module StorageDecoding {

  const MAX_SAFE: int := 9007199254740991

  // A value as the application knows it. Wide integers are those no number holds exactly; storage never accepts one.
  datatype Item =
    | Nothing | Text(text: string) | Flag(flag: bool) | Number(value: real) | Wide(big: int) | Bytes(bytes: seq<nat>)
    | List(items: seq<Item>) | Record(fields: seq<Field>)
  datatype Field = Field(name: string, value: Item)

  // The same value as the decoder returns it.
  datatype Decoded =
    | DNothing | DText(text: string) | DFlag(flag: bool) | DNumber(value: real) | DWide(big: int)
    | DBytes(bytes: seq<nat>) | DBuffer(bytes: seq<nat>)
    | DList(items: seq<Decoded>) | DMap(entries: seq<Entry>) | DRecord(fields: seq<Property>)
  datatype Entry = Entry(key: Decoded, value: Decoded)
  datatype Property = Property(name: string, value: Decoded)

  datatype Outcome<+T> = Ok(value: T) | KeyIsNotText

  // ---- normalisation ------------------------------------------------------------------------

  function Normalize(d: Decoded): Outcome<Item>
    decreases d
  {
    match d
    case DNothing => Ok(Nothing)
    case DText(t) => Ok(Text(t))
    case DFlag(b) => Ok(Flag(b))
    case DNumber(x) => Ok(Number(x))
    case DWide(n) => Ok(if -MAX_SAFE <= n <= MAX_SAFE then Number(n as real) else Wide(n))
    case DBytes(b) => Ok(Bytes(b))
    case DBuffer(b) => Ok(Bytes(b))
    case DList(items) =>
      var all := NormalizeAll(items);
      if all.Ok? then Ok(List(all.value)) else KeyIsNotText
    case DMap(entries) =>
      var all := NormalizeEntries(entries);
      if all.Ok? then Ok(Record(all.value)) else KeyIsNotText
    case DRecord(fields) =>
      var all := NormalizeFields(fields);
      if all.Ok? then Ok(Record(all.value)) else KeyIsNotText
  }

  function NormalizeAll(items: seq<Decoded>): Outcome<seq<Item>>
    decreases items
  {
    if items == [] then Ok([])
    else
      var first := Normalize(items[0]);
      if first.KeyIsNotText? then KeyIsNotText
      else
        var rest := NormalizeAll(items[1..]);
        if rest.Ok? then Ok([first.value] + rest.value) else KeyIsNotText
  }

  function NormalizeEntries(entries: seq<Entry>): Outcome<seq<Field>>
    decreases entries
  {
    if entries == [] then Ok([])
    else if !entries[0].key.DText? then KeyIsNotText
    else
      assert entries[0].value < entries[0];
      var first := Normalize(entries[0].value);
      if first.KeyIsNotText? then KeyIsNotText
      else
        var rest := NormalizeEntries(entries[1..]);
        if rest.Ok? then Ok([Field(entries[0].key.text, first.value)] + rest.value) else KeyIsNotText
  }

  function NormalizeFields(fields: seq<Property>): Outcome<seq<Field>>
    decreases fields
  {
    if fields == [] then Ok([])
    else
      var first := Normalize(fields[0].value);
      if first.KeyIsNotText? then KeyIsNotText
      else
        var rest := NormalizeFields(fields[1..]);
        if rest.Ok? then Ok([Field(fields[0].name, first.value)] + rest.value) else KeyIsNotText
  }

  // ---- what the decoder may return for an item ------------------------------------------

  // Bytes may come back as buffers, records as maps, and a number that is a safe integer as a wide integer; a wide
  // integer beyond that is nothing but itself.
  predicate Represents(d: Decoded, i: Item)
    decreases d
  {
    match d
    case DNothing => i.Nothing?
    case DText(t) => i == Text(t)
    case DFlag(b) => i == Flag(b)
    case DNumber(x) => i == Number(x)
    case DWide(n) =>
      (i == Number(n as real) && -9007199254740991 <= n <= 9007199254740991)
      || (i == Wide(n) && (n < -9007199254740991 || 9007199254740991 < n))
    case DBytes(b) => i == Bytes(b)
    case DBuffer(b) => i == Bytes(b)
    case DList(items) => i.List? && RepresentsAll(items, i.items)
    case DMap(entries) => i.Record? && RepresentsEntries(entries, i.fields)
    case DRecord(fields) => i.Record? && RepresentsFields(fields, i.fields)
  }

  predicate RepresentsAll(items: seq<Decoded>, all: seq<Item>)
    decreases items
  {
    |items| == |all| && (items == [] || (Represents(items[0], all[0]) && RepresentsAll(items[1..], all[1..])))
  }

  predicate RepresentsEntries(entries: seq<Entry>, fields: seq<Field>)
    decreases entries
  {
    if entries == [] || |entries| != |fields| then |entries| == |fields|
    else
      assert entries[0].value < entries[0];
      entries[0].key == DText(fields[0].name) && Represents(entries[0].value, fields[0].value)
        && RepresentsEntries(entries[1..], fields[1..])
  }

  predicate RepresentsFields(decoded: seq<Property>, fields: seq<Field>)
    decreases decoded
  {
    |decoded| == |fields| && (decoded == [] ||
      (decoded[0].name == fields[0].name && Represents(decoded[0].value, fields[0].value)
        && RepresentsFields(decoded[1..], fields[1..])))
  }

  // ---- nothing is lost ---------------------------------------------------------------------------

  // However the decoder chose to represent an item, normalisation gives that very item back.
  lemma {:induction false} RoundTrip(d: Decoded, i: Item)
    requires Represents(d, i)
    ensures Normalize(d) == Ok(i)
    decreases d
  {
    match d
    case DList(items) => RoundTripAll(items, i.items);
    case DMap(entries) => RoundTripEntries(entries, i.fields);
    case DRecord(fields) => RoundTripFields(fields, i.fields);
    case _ =>
  }

  lemma {:induction false} RoundTripAll(items: seq<Decoded>, all: seq<Item>)
    requires RepresentsAll(items, all)
    ensures NormalizeAll(items) == Ok(all)
    decreases items
  {
    if items != [] {
      RoundTrip(items[0], all[0]);
      RoundTripAll(items[1..], all[1..]);
      assert [all[0]] + all[1..] == all;
    }
  }

  lemma {:induction false} RoundTripEntries(entries: seq<Entry>, fields: seq<Field>)
    requires RepresentsEntries(entries, fields)
    ensures NormalizeEntries(entries) == Ok(fields)
    decreases entries
  {
    if entries != [] {
      assert entries[0].value < entries[0];
      RoundTrip(entries[0].value, fields[0].value);
      RoundTripEntries(entries[1..], fields[1..]);
      assert [Field(fields[0].name, fields[0].value)] + fields[1..] == fields;
    }
  }

  lemma {:induction false} RoundTripFields(decoded: seq<Property>, fields: seq<Field>)
    requires RepresentsFields(decoded, fields)
    ensures NormalizeFields(decoded) == Ok(fields)
    decreases decoded
  {
    if decoded != [] {
      RoundTrip(decoded[0].value, fields[0].value);
      RoundTripFields(decoded[1..], fields[1..]);
      assert [Field(fields[0].name, fields[0].value)] + fields[1..] == fields;
    }
  }

  // ---- when there is no normal form ----------------------------------------------------------------

  // A map with a key that is not text.
  predicate IsMisfit(d: Decoded) {
    d.DMap? && exists e :: e in d.entries && !e.key.DText?
  }

  // The one is the other or somewhere inside it; keys are not looked into.
  ghost predicate Within(x: Decoded, d: Decoded)
    decreases d
  {
    || x == d
    || (d.DList? && exists i :: 0 <= i < |d.items| && Within(x, d.items[i]))
    || (d.DMap? && exists i :: 0 <= i < |d.entries| && Within(x, d.entries[i].value))
    || (d.DRecord? && exists i :: 0 <= i < |d.fields| && Within(x, d.fields[i].value))
  }

  ghost predicate HasMisfit(d: Decoded) {
    exists x :: Within(x, d) && IsMisfit(x)
  }

  // Normalisation fails exactly if some map in the value, however deep, has a key that is not text.
  lemma {:induction false} FailsExactly(d: Decoded)
    ensures Normalize(d).KeyIsNotText? <==> HasMisfit(d)
    decreases d
  {
    match d
    case DList(items) =>
      FailsAll(items);
      forall i | 0 <= i < |items| && HasMisfit(items[i]) ensures HasMisfit(d) {
        var x :| Within(x, items[i]) && IsMisfit(x);
        assert Within(x, d);
      }
    case DMap(entries) =>
      FailsEntries(entries);
      assert Within(d, d);
      forall i | 0 <= i < |entries| && HasMisfit(entries[i].value) ensures HasMisfit(d) {
        var x :| Within(x, entries[i].value) && IsMisfit(x);
        assert Within(x, d);
      }
    case DRecord(fields) =>
      FailsFields(fields);
      forall i | 0 <= i < |fields| && HasMisfit(fields[i].value) ensures HasMisfit(d) {
        var x :| Within(x, fields[i].value) && IsMisfit(x);
        assert Within(x, d);
      }
    case _ =>
  }

  lemma {:induction false} FailsAll(items: seq<Decoded>)
    ensures NormalizeAll(items).KeyIsNotText? <==> exists i :: 0 <= i < |items| && HasMisfit(items[i])
    decreases items
  {
    if items != [] {
      FailsExactly(items[0]);
      FailsAll(items[1..]);
      assert forall i :: 0 < i < |items| ==> items[i] == items[1..][i - 1];
    }
  }

  lemma {:induction false} FailsEntries(entries: seq<Entry>)
    ensures NormalizeEntries(entries).KeyIsNotText? <==>
      exists i :: 0 <= i < |entries| && (!entries[i].key.DText? || HasMisfit(entries[i].value))
    decreases entries
  {
    if entries != [] {
      assert entries[0].value < entries[0];
      FailsExactly(entries[0].value);
      FailsEntries(entries[1..]);
      assert forall i :: 0 < i < |entries| ==> entries[i] == entries[1..][i - 1];
    }
  }

  lemma {:induction false} FailsFields(fields: seq<Property>)
    ensures NormalizeFields(fields).KeyIsNotText? <==> exists i :: 0 <= i < |fields| && HasMisfit(fields[i].value)
    decreases fields
  {
    if fields != [] {
      FailsExactly(fields[0].value);
      FailsFields(fields[1..]);
      assert forall i :: 0 < i < |fields| ==> fields[i] == fields[1..][i - 1];
    }
  }

  // ---- the loops -----------------------------------------------------------------------------------

  method NormalizeDecoded(d: Decoded) returns (outcome: Outcome<Item>)
    ensures outcome == Normalize(d)
    ensures outcome.KeyIsNotText? <==> HasMisfit(d)
    decreases d, 1
  {
    hide HasMisfit;
    FailsExactly(d);
    match d
    case DNothing => outcome := Ok(Nothing);
    case DText(t) => outcome := Ok(Text(t));
    case DFlag(b) => outcome := Ok(Flag(b));
    case DNumber(x) => outcome := Ok(Number(x));
    case DWide(n) => outcome := Ok(if -MAX_SAFE <= n <= MAX_SAFE then Number(n as real) else Wide(n));
    case DBytes(b) => outcome := Ok(Bytes(b));
    case DBuffer(b) => outcome := Ok(Bytes(b));
    case DList(items) =>
      var all := [];
      var n := 0;
      assert items[0..] == items;
      PrefixedNone(NormalizeAll(items));
      while n < |items|
        invariant n <= |items| && Prefixed(NormalizeAll(items), all, NormalizeAll(items[n..]))
      {
        assert items[n..][0] == items[n] && items[n..][1..] == items[n + 1..];
        var next := NormalizeDecoded(items[n]);
        if next.KeyIsNotText? {
          return KeyIsNotText;
        }
        PrefixedMore(NormalizeAll(items), all, next.value, NormalizeAll(items[n + 1..]));
        all, n := all + [next.value], n + 1;
      }
      PrefixedAll(NormalizeAll(items), all);
      outcome := Ok(List(all));
    case DMap(entries) =>
      var fields := [];
      var n := 0;
      assert entries[0..] == entries;
      PrefixedNone(NormalizeEntries(entries));
      while n < |entries|
        invariant n <= |entries| && Prefixed(NormalizeEntries(entries), fields, NormalizeEntries(entries[n..]))
      {
        assert entries[n..][0] == entries[n] && entries[n..][1..] == entries[n + 1..];
        if !entries[n].key.DText? {
          return KeyIsNotText;
        }
        var next := NormalizeDecoded(entries[n].value);
        if next.KeyIsNotText? {
          return KeyIsNotText;
        }
        var field := Field(entries[n].key.text, next.value);
        PrefixedMore(NormalizeEntries(entries), fields, field, NormalizeEntries(entries[n + 1..]));
        fields, n := fields + [field], n + 1;
      }
      PrefixedAll(NormalizeEntries(entries), fields);
      outcome := Ok(Record(fields));
    case DRecord(decoded) =>
      var fields := [];
      var n := 0;
      assert decoded[0..] == decoded;
      PrefixedNone(NormalizeFields(decoded));
      while n < |decoded|
        invariant n <= |decoded| && Prefixed(NormalizeFields(decoded), fields, NormalizeFields(decoded[n..]))
      {
        assert decoded[n..][0] == decoded[n] && decoded[n..][1..] == decoded[n + 1..];
        var next := NormalizeDecoded(decoded[n].value);
        if next.KeyIsNotText? {
          return KeyIsNotText;
        }
        var field := Field(decoded[n].name, next.value);
        PrefixedMore(NormalizeFields(decoded), fields, field, NormalizeFields(decoded[n + 1..]));
        fields, n := fields + [field], n + 1;
      }
      PrefixedAll(NormalizeFields(decoded), fields);
      outcome := Ok(Record(fields));
  }

  // What is done, then what the rest comes to, is the whole.
  predicate Prefixed<T(==)>(whole: Outcome<seq<T>>, done: seq<T>, rest: Outcome<seq<T>>) {
    whole == if rest.Ok? then Ok(done + rest.value) else KeyIsNotText
  }

  lemma PrefixedNone<T>(whole: Outcome<seq<T>>)
    ensures Prefixed(whole, [], whole)
  {
    if whole.Ok? {
      assert [] + whole.value == whole.value;
    }
  }

  lemma PrefixedAll<T>(whole: Outcome<seq<T>>, done: seq<T>)
    requires Prefixed(whole, done, Ok([]))
    ensures whole == Ok(done)
  {
    assert done + [] == done;
  }

  lemma PrefixedMore<T>(whole: Outcome<seq<T>>, done: seq<T>, next: T, rest: Outcome<seq<T>>)
    requires Prefixed(whole, done, if rest.Ok? then Ok([next] + rest.value) else KeyIsNotText)
    ensures Prefixed(whole, done + [next], rest)
  {
    if rest.Ok? {
      assert done + ([next] + rest.value) == done + [next] + rest.value;
    }
  }
}
