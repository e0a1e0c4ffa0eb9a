/** The text under which the search remembers a dead state. Two states with the same text are
    the same state, so remembering the text is as good as remembering the state. */
module LinearKey {
  import opened LinearModel

  // ---- Numbers and bytes as text -------------------------------------------

  function Digit(d: nat): char
    requires d < 16
  {
    if d < 10 then '0' + d as char else 'a' + (d - 10) as char
  }

  lemma DigitsDiffer(a: nat, b: nat)
    requires a < 16 && b < 16 && Digit(a) == Digit(b)
    ensures a == b
  {
  }

  predicate IsSeparator(c: char) {
    c == '|' || c == '=' || c == '@'
  }

  predicate Plain(s: string) {
    forall i :: 0 <= i < |s| ==> !IsSeparator(s[i])
  }

  lemma DigitIsPlain(d: nat)
    requires d < 16
    ensures !IsSeparator(Digit(d)) && Digit(d) != '-'
  {
  }

  function Decimal(n: nat): (s: string)
    ensures s != []
  {
    if n < 10 then [Digit(n)] else Decimal(n / 10) + [Digit(n % 10)]
  }

  lemma {:induction false} DecimalIsPlain(n: nat)
    ensures Plain(Decimal(n))
  {
    DigitIsPlain(n % 10);
    if n >= 10 {
      DecimalIsPlain(n / 10);
    }
  }

  lemma {:induction false} DecimalsDiffer(a: nat, b: nat)
    requires Decimal(a) == Decimal(b)
    ensures a == b
  {
    var s := Decimal(a);
    DecimalLength(a);
    DecimalLength(b);
    assert s[|s| - 1] == Digit(a % 10) && s[|s| - 1] == Digit(b % 10);
    DigitsDiffer(a % 10, b % 10);
    if a >= 10 {
      assert Decimal(a / 10) == s[..|s| - 1] == Decimal(b / 10);
      DecimalsDiffer(a / 10, b / 10);
    }
  }

  lemma DecimalLength(n: nat)
    ensures |Decimal(n)| == 1 <==> n < 10
  {
  }

  function HexDigits(bytes: Text): (s: string)
    ensures |s| == 2 * |bytes|
  {
    if bytes == [] then []
    else [Digit(bytes[0] / 16), Digit(bytes[0] % 16)] + HexDigits(bytes[1..])
  }

  function Hex(bytes: Text): string {
    if bytes == [] then "-" else HexDigits(bytes)
  }

  lemma {:induction false} HexIsPlain(bytes: Text)
    ensures Plain(HexDigits(bytes)) && Plain(Hex(bytes))
    ensures forall i :: 0 <= i < |HexDigits(bytes)| ==> HexDigits(bytes)[i] != '-'
  {
    if bytes != [] {
      DigitIsPlain(bytes[0] / 16);
      DigitIsPlain(bytes[0] % 16);
      HexIsPlain(bytes[1..]);
    }
  }

  lemma {:induction false} HexDigitsDiffer(a: Text, b: Text)
    requires HexDigits(a) == HexDigits(b)
    ensures a == b
  {
    if a != [] {
      var s := HexDigits(a);
      assert s[0] == Digit(a[0] / 16) == Digit(b[0] / 16) && s[1] == Digit(a[0] % 16) == Digit(b[0] % 16);
      DigitsDiffer(a[0] / 16, b[0] / 16);
      DigitsDiffer(a[0] % 16, b[0] % 16);
      assert s[2..] == HexDigits(a[1..]) && s[2..] == HexDigits(b[1..]);
      HexDigitsDiffer(a[1..], b[1..]);
    }
  }

  lemma HexesDiffer(a: Text, b: Text)
    requires Hex(a) == Hex(b)
    ensures a == b
  {
    HexIsPlain(a);
    HexIsPlain(b);
    if a != [] && b != [] {
      HexDigitsDiffer(a, b);
    }
  }

  // ---- Fields between separators -------------------------------------------

  predicate Ends(s: string) {
    s == [] || IsSeparator(s[0])
  }

  lemma NoShorter(a: string, x: string, b: string, y: string)
    requires Plain(b) && Ends(x) && a + x == b + y
    ensures |b| <= |a|
  {
    var s := a + x;
    assert forall i :: 0 <= i < |b| ==> s[i] == b[i] && !IsSeparator(s[i]);
    assert |a| < |s| ==> s[|a|] == x[0] && IsSeparator(s[|a|]);
  }

  /** A plain field followed by a separator, or by nothing, can be told apart. */
  lemma FieldsSplit(a: string, x: string, b: string, y: string)
    requires Plain(a) && Plain(b) && Ends(x) && Ends(y) && a + x == b + y
    ensures a == b && x == y
  {
    var s := a + x;
    NoShorter(a, x, b, y);
    NoShorter(b, y, a, x);
    assert a == s[..|a|] && b == s[..|b|] && x == s[|a|..] && y == s[|b|..];
  }

  // ---- The key -------------------------------------------------------------

  datatype Entry = Entry(key: Text, value: Text, modified: nat)

  function EntryText(e: Entry): string {
    Fields(Hex(e.key), Hex(e.value), Decimal(e.modified))
  }

  function EntriesText(entries: seq<Entry>): string {
    if entries == [] then "" else EntryText(entries[0]) + EntriesText(entries[1..])
  }

  function StateText(remaining: nat, revision: nat, entries: seq<Entry>): string {
    Decimal(remaining) + ("|" + (Decimal(revision) + EntriesText(entries)))
  }

  lemma EntriesEnd(entries: seq<Entry>)
    ensures Ends(EntriesText(entries))
    ensures entries != [] ==> EntriesText(entries) != []
  {
  }

  function Fields(a: string, b: string, c: string): string {
    "|" + (a + ("=" + (b + ("@" + c))))
  }

  lemma FieldsThen(a: string, b: string, c: string, x: string)
    ensures Fields(a, b, c) + x == "|" + (a + ("=" + (b + ("@" + (c + x)))))
  {
  }

  lemma AfterMark(mark: string, a: string, b: string)
    requires |mark| == 1 && mark + a == mark + b
    ensures a == b
  {
    assert a == (mark + a)[1..] && b == (mark + b)[1..];
  }

  lemma ThreeFields(a: string, b: string, c: string, x: string, a': string, b': string, c': string, y: string)
    requires Plain(a) && Plain(b) && Plain(c) && Plain(a') && Plain(b') && Plain(c') && Ends(x) && Ends(y)
    requires Fields(a, b, c) + x == Fields(a', b', c') + y
    ensures a == a' && b == b' && c == c' && x == y
  {
    hide Fields, Plain;
    FieldsThen(a, b, c, x);
    FieldsThen(a', b', c', y);
    var ve, vf := "@" + (c + x), "@" + (c' + y);
    var ke, kf := "=" + (b + ve), "=" + (b' + vf);
    AfterMark("|", a + ke, a' + kf);
    FieldsSplit(a, ke, a', kf);
    AfterMark("=", b + ve, b' + vf);
    FieldsSplit(b, ve, b', vf);
    AfterMark("@", c + x, c' + y);
    FieldsSplit(c, x, c', y);
  }

  lemma FirstEntrySplits(e: Entry, x: string, f: Entry, y: string)
    requires Ends(x) && Ends(y) && EntryText(e) + x == EntryText(f) + y
    ensures e == f && x == y
  {
    hide Hex, Decimal;
    HexIsPlain(e.key);
    HexIsPlain(f.key);
    HexIsPlain(e.value);
    HexIsPlain(f.value);
    DecimalIsPlain(e.modified);
    DecimalIsPlain(f.modified);
    ThreeFields(Hex(e.key), Hex(e.value), Decimal(e.modified), x,
                Hex(f.key), Hex(f.value), Decimal(f.modified), y);
    HexesDiffer(e.key, f.key);
    HexesDiffer(e.value, f.value);
    DecimalsDiffer(e.modified, f.modified);
  }

  lemma {:induction false} EntriesDiffer(a: seq<Entry>, b: seq<Entry>)
    requires EntriesText(a) == EntriesText(b)
    ensures a == b
  {
    EntriesEnd(a);
    EntriesEnd(b);
    if a != [] && b != [] {
      EntriesEnd(a[1..]);
      EntriesEnd(b[1..]);
      FirstEntrySplits(a[0], EntriesText(a[1..]), b[0], EntriesText(b[1..]));
      EntriesDiffer(a[1..], b[1..]);
    }
  }

  /** The listing of a state's values, in whatever order the map is walked. */
  ghost predicate Lists(entries: seq<Entry>, values: map<Text, Versioned>) {
    && (forall e :: e in entries ==> e.key in values && values[e.key] == Versioned(e.value, e.modified))
    && (forall k :: k in values ==> exists e :: e in entries && e.key == k)
  }

  /** Equal texts come from equal search states. */
  lemma TextDeterminesState(r1: nat, m1: Model, e1: seq<Entry>, r2: nat, m2: Model, e2: seq<Entry>)
    requires 0 <= m1.revision && 0 <= m2.revision && Lists(e1, m1.values) && Lists(e2, m2.values)
    requires StateText(r1, m1.revision, e1) == StateText(r2, m2.revision, e2)
    ensures r1 == r2 && m1 == m2
  {
    DecimalIsPlain(r1);
    DecimalIsPlain(r2);
    DecimalIsPlain(m1.revision);
    DecimalIsPlain(m2.revision);
    EntriesEnd(e1);
    EntriesEnd(e2);
    var t1, t2 := Decimal(m1.revision) + EntriesText(e1), Decimal(m2.revision) + EntriesText(e2);
    FieldsSplit(Decimal(r1), "|" + t1, Decimal(r2), "|" + t2);
    assert t1 == ("|" + t1)[1..] && t2 == ("|" + t2)[1..];
    FieldsSplit(Decimal(m1.revision), EntriesText(e1), Decimal(m2.revision), EntriesText(e2));
    DecimalsDiffer(r1, r2);
    DecimalsDiffer(m1.revision, m2.revision);
    EntriesDiffer(e1, e2);
    SameListing(e1, m1.values, m2.values);
  }

  lemma SameListing(entries: seq<Entry>, a: map<Text, Versioned>, b: map<Text, Versioned>)
    requires Lists(entries, a) && Lists(entries, b)
    ensures a == b
  {
    forall k | k in a ensures k in b && a[k] == b[k] {
      var e :| e in entries && e.key == k;
    }
    forall k | k in b ensures k in a {
      var e :| e in entries && e.key == k;
    }
  }
}
