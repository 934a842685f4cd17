/** 64-bit integers as decimal text: the printed form, Rust's lenient integer parser, and the three
    strict readers built on it. */
module Decimal {
  import opened Core

  predicate IsDigit(c: char) {
    '0' <= c <= '9'
  }

  function DigitValue(c: char): nat
    requires IsDigit(c)
  {
    c as int - '0' as int
  }

  function DigitChar(d: nat): (c: char)
    requires d < 10
    ensures IsDigit(c) && DigitValue(c) == d
  {
    ('0' as int + d) as char
  }

  predicate AllDigits(s: string) {
    forall i :: 0 <= i < |s| ==> IsDigit(s[i])
  }

  /** The number a string of digits denotes. */
  function Value(s: string): nat
    requires AllDigits(s)
  {
    if s == "" then 0 else Value(s[..|s| - 1]) * 10 + DigitValue(s[|s| - 1])
  }

  /** `to_string`. */
  function Print(n: nat): string {
    if n < 10 then [DigitChar(n)] else Print(n / 10) + [DigitChar(n % 10)]
  }

  /** `str::parse::<u64>`: a leading plus sign and leading zeros are accepted, overflow is not. */
  function Parse(s: string): Option<U64> {
    var digits := if |s| > 1 && s[0] == '+' then s[1..] else s;
    if digits == "" || !AllDigits(digits) || Value(digits) > MAX_U64 then None else Some(Value(digits))
  }

  /** The digits are folded one by one with checked multiplication and addition. */
  method ParseDigits(s: string) returns (r: Option<U64>)
    ensures r == Parse(s)
  {
    var digits := if |s| > 1 && s[0] == '+' then s[1..] else s;
    if digits == "" {
      return None;
    }
    var value: U64 := 0;
    for i := 0 to |digits|
      invariant AllDigits(digits[..i]) && value == Value(digits[..i])
    {
      if !IsDigit(digits[i]) {
        return None;
      }
      assert digits[..i + 1][..i] == digits[..i];
      assert AllDigits(digits[..i + 1]);
      var next := value * 10 + DigitValue(digits[i]);
      if next > MAX_U64 {
        if AllDigits(digits) {
          PrefixesAreSmaller(digits, i + 1);
        }
        return None;
      }
      value := next;
    }
    assert digits[..|digits|] == digits;
    r := Some(value);
  }

  lemma {:induction false} PrefixesAreSmaller(s: string, k: nat)
    requires AllDigits(s) && k <= |s|
    ensures Value(s[..k]) <= Value(s)
  {
    if k == |s| {
      assert s[..k] == s;
    } else {
      PrefixesAreSmaller(s[..|s| - 1], k);
      assert s[..|s| - 1][..k] == s[..k];
    }
  }

  predicate Canonical(s: string) {
    s != "" && AllDigits(s) && (|s| > 1 ==> s[0] != '0')
  }

  /** `DecimalU64`'s reader. */
  function DecodeDecimal(s: string): Option<U64> {
    if s == "" || !AllDigits(s) || (|s| > 1 && s[0] == '0') then None else Parse(s)
  }

  /** The cursor reader of `parse_session_cursors`: parse leniently, then compare with the printed form. */
  function DecodeCursor(s: string): Option<U64> {
    match Parse(s)
    case None => None
    case Some(n) => if n == 0 || s != Print(n) then None else Some(n)
  }

  /** `parse_sequence`. */
  function DecodeSequence(s: string): Option<Counter> {
    if s == "" || !AllDigits(s) || (|s| > 1 && s[0] == '0') then None
    else match Parse(s)
      case None => None
      case Some(n) => if n == 0 then None else Some(n)
  }

  // ---------- Print and read are inverse ----------

  lemma {:induction false} PrintIsCanonical(n: nat)
    ensures Canonical(Print(n)) && Value(Print(n)) == n
    ensures n > 0 ==> Print(n)[0] != '0'
  {
    if n >= 10 {
      var head := Print(n / 10);
      PrintIsCanonical(n / 10);
      assert Print(n)[..|Print(n)| - 1] == head;
    } else {
      assert Print(n)[..0] == "";
    }
  }

  lemma {:induction false} CanonicalIsPrinted(s: string)
    requires Canonical(s)
    ensures Print(Value(s)) == s
    ensures s[0] != '0' ==> Value(s) > 0
  {
    var k := |s| - 1;
    if k == 0 {
      assert s[..0] == "";
      DigitRoundTrip(s[0]);
    } else {
      var head := s[..k];
      CanonicalIsPrinted(head);
      assert head[0] != '0';
      DigitRoundTrip(s[k]);
      assert Value(s) / 10 == Value(head) && Value(s) % 10 == DigitValue(s[k]);
      assert s == head + [s[k]];
    }
  }

  lemma DigitRoundTrip(c: char)
    requires IsDigit(c)
    ensures DigitChar(DigitValue(c)) == c
  {
  }

  /** The reader accepts exactly the printed form of each 64-bit value, and gives that value back. */
  lemma DecodeDecimalIsExact(s: string, n: U64)
    ensures DecodeDecimal(s) == Some(n) <==> s == Print(n)
  {
    PrintIsCanonical(n);
    if Canonical(s) {
      CanonicalIsPrinted(s);
    }
  }

  /** All three readers agree: the cursor and sequence readers accept what `DecimalU64` accepts, except zero. */
  lemma ReadersAgree(s: string)
    ensures var strict := DecodeDecimal(s);
            var positive: Option<U64> := if strict == Some(0) then None else strict;
            DecodeCursor(s) == positive && DecodeSequence(s) == positive
  {
    match Parse(s)
    case None =>
    case Some(n) =>
      DecodeDecimalIsExact(s, n);
  }

  // ---------- The cursor list ----------

  /** One entry of the resume list; `session` is the parsed Session id, if its text was valid. */
  datatype CursorEntry = CursorEntry(session: Option<SessionId>, lastSequence: string)

  ghost predicate GoodEntry(entry: CursorEntry) {
    entry.session.Some? && DecodeCursor(entry.lastSequence).Some?
  }

  ghost predicate GoodCursors(entries: seq<CursorEntry>) {
    && (forall i :: 0 <= i < |entries| ==> GoodEntry(entries[i]))
    && (forall i, j :: 0 <= i < j < |entries| ==> entries[i].session != entries[j].session)
  }

  ghost predicate Lists(cursors: map<SessionId, U64>, entries: seq<CursorEntry>)
    requires GoodCursors(entries)
  {
    && (forall i :: 0 <= i < |entries| ==>
          entries[i].session.value in cursors
          && DecodeCursor(entries[i].lastSequence) == Some(cursors[entries[i].session.value]))
    && (forall s :: s in cursors ==> exists i :: 0 <= i < |entries| && entries[i].session == Some(s))
  }

  /** `parse_session_cursors`: accepts exactly the lists of well-formed entries without a repeated
      Session, and then holds exactly their positive cursors. */
  method ParseSessionCursors(entries: seq<CursorEntry>) returns (r: Option<map<SessionId, U64>>)
    ensures r.Some? <==> GoodCursors(entries)
    ensures r.Some? ==> Lists(r.value, entries)
  {
    hide Parse, Print, Lists;
    var parsed: map<SessionId, U64> := map[];
    NothingListed();
    for i := 0 to |entries|
      invariant GoodCursors(entries[..i]) && Lists(parsed, entries[..i])
    {
      var entry := entries[i];
      if entry.session.None? {
        assert !GoodEntry(entries[i]);
        return None;
      }
      var value := ParseDigits(entry.lastSequence);
      if value.None? || value.value == 0 || entry.lastSequence != Print(value.value) {
        assert !GoodEntry(entries[i]);
        return None;
      }
      var session := entry.session.value;
      if session in parsed {
        ghost var j := ListedAt(parsed, entries[..i], session);
        assert entries[j].session == entries[i].session;
        return None;
      }
      Appends(parsed, entries[..i], entry, value.value);
      assert entries[..i + 1] == entries[..i] + [entry];
      parsed := parsed[session := value.value];
    }
    assert entries[..|entries|] == entries;
    r := Some(parsed);
  }

  lemma NothingListed()
    ensures GoodCursors([]) && Lists(map[], [])
  {
  }

  lemma ListedAt(parsed: map<SessionId, U64>, entries: seq<CursorEntry>, session: SessionId) returns (j: nat)
    requires GoodCursors(entries) && Lists(parsed, entries) && session in parsed
    ensures j < |entries| && entries[j].session == Some(session)
  {
    j :| 0 <= j < |entries| && entries[j].session == Some(session);
  }

  lemma Appends(parsed: map<SessionId, U64>, entries: seq<CursorEntry>, entry: CursorEntry, value: U64)
    requires GoodCursors(entries) && Lists(parsed, entries)
    requires entry.session.Some? && entry.session.value !in parsed && DecodeCursor(entry.lastSequence) == Some(value)
    ensures GoodCursors(entries + [entry]) && Lists(parsed[entry.session.value := value], entries + [entry])
  {
    hide DecodeCursor;
    var more := entries + [entry];
    assert more[|entries|] == entry;
    assert forall i :: 0 <= i < |entries| ==> more[i] == entries[i];
    assert GoodCursors(more);
    var after := parsed[entry.session.value := value];
    forall s | s in after ensures exists i :: 0 <= i < |more| && more[i].session == Some(s) {
      if s in parsed {
        var i :| 0 <= i < |entries| && entries[i].session == Some(s);
        assert more[i].session == Some(s);
      } else {
        assert more[|entries|].session == Some(s);
      }
    }
  }
}
