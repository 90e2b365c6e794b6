/** Strings as labels carry them: trimming, comma lists, substrings and decimal numbers. */
module Text {
  import opened Options

  /** The labels of a container. */
  type Labels = map<string, string>

  /** White space as Go's `TrimSpace` sees it. */
  predicate IsSpace(c: char) {
    c in {' ', '\t', '\n', '\U{0B}', '\U{0C}', '\r', '\U{85}', '\U{A0}', '\U{1680}', '\U{2028}', '\U{2029}', '\U{202F}', '\U{205F}', '\U{3000}'}
    || '\U{2000}' <= c <= '\U{200A}'
  }

  function TrimLeft(s: string): (r: string)
    ensures r == "" || !IsSpace(r[0])
    ensures forall c | c in r :: c in s
    ensures s != "" && !IsSpace(s[0]) ==> r == s
  {
    if s != "" && IsSpace(s[0]) then TrimLeft(s[1..]) else s
  }

  function TrimRight(s: string): (r: string)
    ensures r == "" || !IsSpace(r[|r| - 1])
    ensures r <= s
    ensures s != "" && !IsSpace(s[|s| - 1]) ==> r == s
  {
    if s != "" && IsSpace(s[|s| - 1]) then TrimRight(s[..|s| - 1]) else s
  }

  function Trim(s: string): (r: string)
    ensures forall c | c in r :: c in s
  {
    TrimRight(TrimLeft(s))
  }

  /** The pieces between separators; always at least one. */
  function Split(s: string, sep: char): (parts: seq<string>)
    ensures |parts| > 0
  {
    if s == "" then [""]
    else if s[0] == sep then [""] + Split(s[1..], sep)
    else
      var rest := Split(s[1..], sep);
      [[s[0]] + rest[0]] + rest[1..]
  }

  lemma {:induction false} PiecesHaveNoSeparator(s: string, sep: char)
    ensures forall i | 0 <= i < |Split(s, sep)| :: sep !in Split(s, sep)[i]
    ensures sep !in s ==> Split(s, sep) == [s]
  {
    if s != "" {
      PiecesHaveNoSeparator(s[1..], sep);
      assert s == [s[0]] + s[1..];
    }
  }

  /** The parts one after the other with a separator between any two. */
  function Joined(parts: seq<string>, sep: char): string {
    if parts == [] then "" else if |parts| == 1 then parts[0] else parts[0] + [sep] + Joined(parts[1..], sep)
  }

  /** The pieces put together again are the string. */
  lemma {:induction false} PiecesMakeTheString(s: string, sep: char)
    ensures Joined(Split(s, sep), sep) == s
  {
    if s != "" {
      PiecesMakeTheString(s[1..], sep);
      var rest := Split(s[1..], sep);
      assert s == [s[0]] + s[1..];
      if s[0] == sep {
        assert Split(s, sep)[1..] == rest;
      } else if |rest| > 1 {
        assert Split(s, sep)[1..] == rest[1..];
      }
    }
  }

  /** Parts without separators are found again. */
  lemma {:induction false} PartsAreFound(parts: seq<string>, sep: char)
    requires parts != [] && forall i | 0 <= i < |parts| :: sep !in parts[i]
    ensures Split(Joined(parts, sep), sep) == parts
  {
    if |parts| == 1 {
      PiecesHaveNoSeparator(parts[0], sep);
    } else {
      PartsAreFound(parts[1..], sep);
      FirstPiece(parts[0], Joined(parts[1..], sep), sep);
      assert parts == [parts[0]] + parts[1..];
    }
  }

  lemma {:induction false} FirstPiece(part: string, rest: string, sep: char)
    requires sep !in part
    ensures Split(part + [sep] + rest, sep) == [part] + Split(rest, sep)
  {
    var s := part + [sep] + rest;
    if part == "" {
      assert s[1..] == rest;
    } else {
      assert s[1..] == part[1..] + [sep] + rest;
      FirstPiece(part[1..], rest, sep);
      assert part == [part[0]] + part[1..];
    }
  }

  /** White space around a core that has none at its ends is taken off, and no more than that. */
  lemma {:induction false} TrimStrips(a: string, core: string, b: string)
    requires forall i | 0 <= i < |a| :: a[i] in {' ', '\t', '\n', '\r'}
    requires forall i | 0 <= i < |b| :: b[i] in {' ', '\t', '\n', '\r'}
    requires core != "" && !IsSpace(core[0]) && !IsSpace(core[|core| - 1])
    ensures Trim(a + core + b) == core
    decreases |a| + |b|
  {
    var s := a + core + b;
    if a != "" {
      assert s[0] == a[0] && s[1..] == a[1..] + core + b;
      TrimStrips(a[1..], core, b);
    } else if b != "" {
      assert s[0] == core[0] && s[|s| - 1] == b[|b| - 1];
      assert s[..|s| - 1] == a + core + b[..|b| - 1];
      TrimStrips(a, core, b[..|b| - 1]);
    } else {
      assert s == core;
    }
  }

  function NonBlank(parts: seq<string>): seq<string> {
    if parts == [] then []
    else
      var rest := NonBlank(parts[..|parts| - 1]);
      var last := Trim(parts[|parts| - 1]);
      if last == "" then rest else rest + [last]
  }

  lemma {:induction false} NonBlankMembers(parts: seq<string>)
    ensures forall x :: x in NonBlank(parts) <==> x != "" && exists i :: 0 <= i < |parts| && x == Trim(parts[i])
  {
    if parts != [] {
      var before := parts[..|parts| - 1];
      NonBlankMembers(before);
      forall x ensures x in NonBlank(parts) <==> x != "" && exists i :: 0 <= i < |parts| && x == Trim(parts[i]) {
        if i :| 0 <= i < |parts| && x == Trim(parts[i]) {
          assert i < |before| ==> before[i] == parts[i];
        }
        if i :| 0 <= i < |before| && x == Trim(before[i]) {
          assert parts[i] == before[i];
        }
      }
    }
  }

  /** The trimmed non-empty fields of a comma list. */
  method SplitCSV(v: string) returns (fields: seq<string>)
    ensures fields == Fields(v)
  {
    fields := [];
    if Trim(v) == "" {
      BlankHasNoFields(v);
      return;
    }
    var parts := Split(v, ',');
    for i := 0 to |parts|
      invariant fields == NonBlank(parts[..i])
    {
      assert parts[..i + 1][..i] == parts[..i];
      var field := Trim(parts[i]);
      if field != "" {
        fields := fields + [field];
      }
    }
    assert parts[..|parts|] == parts;
  }

  function Fields(v: string): seq<string> {
    NonBlank(Split(v, ','))
  }

  lemma {:induction false} AllSpace(s: string)
    ensures Trim(s) == "" <==> forall c | c in s :: IsSpace(c)
  {
    TrimLeftKeeps(s);
    var t := TrimLeft(s);
    if t != "" {
      assert t[0] in t;
      TrimRightKeeps(t);
    }
  }

  lemma {:induction false} TrimLeftKeeps(s: string)
    ensures TrimLeft(s) == "" <==> forall c | c in s :: IsSpace(c)
    ensures TrimLeft(s) != "" ==> TrimLeft(s)[0] in s
  {
    if s != "" && IsSpace(s[0]) {
      TrimLeftKeeps(s[1..]);
      assert s == [s[0]] + s[1..];
    } else if s != "" {
      assert s[0] in s;
    }
  }

  lemma {:induction false} TrimRightKeeps(s: string)
    requires s != "" && !IsSpace(s[0])
    ensures TrimRight(s) != ""
  {
    if IsSpace(s[|s| - 1]) {
      TrimRightKeeps(s[..|s| - 1]);
    }
  }

  lemma {:induction false} PiecesComeFrom(s: string, sep: char)
    ensures forall i | 0 <= i < |Split(s, sep)| :: forall c | c in Split(s, sep)[i] :: c in s
  {
    if s != "" {
      PiecesComeFrom(s[1..], sep);
      assert s == [s[0]] + s[1..];
    }
  }

  lemma NoMembers<T>(s: seq<T>)
    ensures s == [] <==> forall x :: x !in s
  {
    assert s != [] ==> s[0] in s;
  }

  lemma BlankHasNoFields(v: string)
    requires Trim(v) == ""
    ensures Fields(v) == []
  {
    var parts := Split(v, ',');
    AllSpace(v);
    PiecesComeFrom(v, ',');
    NonBlankMembers(parts);
    forall i | 0 <= i < |parts| ensures Trim(parts[i]) == "" {
      AllSpace(parts[i]);
    }
    NoMembers(Fields(v));
  }

  lemma NothingInNothing()
    ensures Fields("") == []
  {
    BlankHasNoFields("");
  }

  /** A name can be found again in the list made of it alone exactly when it is not blank, has no
      comma and no outer white space. */
  lemma FoundInOwnList(name: string)
    ensures name in Fields(name) <==> IsField(name)
  {
    var parts := Split(name, ',');
    PiecesHaveNoSeparator(name, ',');
    NonBlankMembers(parts);
    if ',' !in name {
      assert parts[0] == name;
    }
  }

  /** A name that can stand in a comma list. */
  predicate IsField(name: string) {
    name != "" && ',' !in name && Trim(name) == name
  }

  /** A comma list is read as the names it was made of, in their order, however they are padded. */
  lemma ListIsRead(pieces: seq<string>, names: seq<string>)
    requires |pieces| == |names| && forall i | 0 <= i < |pieces| :: ',' !in pieces[i] && Trim(pieces[i]) == names[i] != ""
    ensures Fields(Joined(pieces, ',')) == names
  {
    if pieces != [] {
      PartsAreFound(pieces, ',');
      AllNonBlank(pieces, names);
    }
  }

  lemma {:induction false} AllNonBlank(parts: seq<string>, names: seq<string>)
    requires |parts| == |names| && forall i | 0 <= i < |parts| :: Trim(parts[i]) == names[i] != ""
    ensures NonBlank(parts) == names
  {
    hide Trim;
    if parts != [] {
      AllNonBlank(parts[..|parts| - 1], names[..|names| - 1]);
      assert names == names[..|names| - 1] + [names[|names| - 1]];
    }
  }

  predicate OccursAt(s: string, part: string, i: nat) {
    i + |part| <= |s| && s[i..i + |part|] == part
  }

  predicate Contains(s: string, part: string) {
    exists i :: 0 <= i <= |s| && OccursAt(s, part, i)
  }

  lemma ContainsMiddle(a: string, part: string, b: string)
    ensures Contains(a + part + b, part)
  {
    assert OccursAt(a + part + b, part, |a|);
  }

  // Decimal numbers.

  const MAX64: int := 0x7FFF_FFFF_FFFF_FFFF
  const MIN64: int := -0x8000_0000_0000_0000

  /** Two's complement wrap-around of a 64-bit integer. */
  function Wrap64(n: int): (r: int)
    ensures MIN64 <= r <= MAX64 && (MIN64 <= n <= MAX64 ==> r == n)
  {
    (n - MIN64) % 0x1_0000_0000_0000_0000 + MIN64
  }

  predicate IsDigit(c: char) {
    '0' <= c <= '9'
  }

  function Digits(n: nat): (s: string)
    ensures s != "" && forall c | c in s :: IsDigit(c)
  {
    var last := [('0' as int + n % 10) as char];
    if n < 10 then last else Digits(n / 10) + last
  }

  function Decimal(s: string): nat
    requires forall c | c in s :: IsDigit(c)
  {
    if s == "" then 0
    else
      var last := s[|s| - 1];
      assert last in s && IsDigit(last);
      10 * Decimal(s[..|s| - 1]) + (last as int - '0' as int)
  }

  lemma {:induction false} DigitsRead(n: nat)
    ensures Decimal(Digits(n)) == n
  {
    if n >= 10 {
      DigitsRead(n / 10);
      assert Digits(n)[..|Digits(n)| - 1] == Digits(n / 10);
    } else {
      assert Digits(n)[..0] == "";
    }
  }

  function Itoa(n: int): string {
    if n < 0 then "-" + Digits(-n) else Digits(n)
  }

  /** A sign, digits, and a value that fits; anything else is an error. */
  function Atoi(s: string): Option<int> {
    var body := if s != "" && s[0] in {'+', '-'} then s[1..] else s;
    if body == "" || exists i :: 0 <= i < |body| && !IsDigit(body[i]) then None
    else
      var v: int := Decimal(body);
      var n := if s[0] == '-' then -v else v;
      if MIN64 <= n <= MAX64 then Some(n) else None
  }

  /** Every 64-bit number is read back as printed, spaces around it or not. */
  lemma PrintedIsRead(n: int)
    requires MIN64 <= n <= MAX64
    ensures Atoi(Trim(Itoa(n))) == Some(n)
  {
    var m: nat := if n < 0 then -n else n;
    DigitsRead(m);
    Visible(n);
    assert n < 0 ==> Itoa(n)[1..] == Digits(m);
  }

  lemma Visible(n: int)
    ensures Trim(Itoa(n)) == Itoa(n) && (n >= 0 ==> IsDigit(Itoa(n)[0]))
    ensures forall i | (if n < 0 then 1 else 0) <= i < |Itoa(n)| :: IsDigit(Itoa(n)[i])
  {
    hide TrimLeft, TrimRight, Digits;
    var s := Itoa(n);
    var d := Digits(if n < 0 then -n else n);
    assert forall i | 0 <= i < |d| :: d[i] in d;
    assert !IsSpace(s[0]) && !IsSpace(s[|s| - 1]);
  }

  /** The length of the UTF-8 encoding. */
  function Bytes(s: string): nat {
    if s == "" then 0
    else
      var c := s[|s| - 1] as int;
      Bytes(s[..|s| - 1]) + if c < 0x80 then 1 else if c < 0x800 then 2 else if c < 0x1_0000 then 3 else 4
  }

  /** The length of plain text is the number of its characters. */
  lemma {:induction false} BytesOfPlainText(s: string)
    requires forall i | 0 <= i < |s| :: s[i] as int < 0x80
    ensures Bytes(s) == |s|
  {
    if s != "" {
      BytesOfPlainText(s[..|s| - 1]);
    }
  }

  /** Numbers are written in tens, with a sign in front of the negative ones. */
  lemma NumbersAsWritten(n: nat, d: nat)
    requires d < 10
    ensures Itoa(10 * n + d) == (if n == 0 then "" else Itoa(n)) + ["0123456789"[d]]
    ensures n > 0 ==> Itoa(-(n as int)) == "-" + Itoa(n)
  {
    assert (10 * n + d) / 10 == n && (10 * n + d) % 10 == d;
  }

  // Order.

  /** The order of strings. */
  predicate Below(a: string, b: string) {
    b != [] && (a == [] || a[0] < b[0] || (a[0] == b[0] && Below(a[1..], b[1..])))
  }

  lemma {:induction false} BelowIsStrict(a: string, b: string, c: string)
    ensures !Below(a, a) && !(Below(a, b) && Below(b, a))
    ensures Below(a, b) && Below(b, c) ==> Below(a, c)
    ensures !Below(b, a) && !Below(c, b) ==> !Below(c, a)
    decreases |a| + |b| + |c|
  {
    if a != [] || b != [] || c != [] {
      var tail := (s: string) => if s == [] then s else s[1..];
      BelowIsStrict(tail(a), tail(b), tail(c));
    }
  }

  lemma {:induction false} BelowIsTotal(a: string, b: string)
    ensures a == b || Below(a, b) || Below(b, a)
  {
    if a != [] && b != [] && a[0] == b[0] {
      BelowIsTotal(a[1..], b[1..]);
      assert a == [a[0]] + a[1..] && b == [b[0]] + b[1..];
    }
  }

  /** One string is below another exactly when it ends first, or has the smaller character, where the two part. */
  lemma {:induction false} BelowAsWritten(a: string, b: string)
    ensures Below(a, b) <==> exists k :: 0 <= k <= |a| && k < |b| && a[..k] == b[..k] && (k == |a| || a[k] < b[k])
  {
    if a == "" {
      assert b != "" ==> a[..0] == b[..0];
    } else if b != "" && a[0] == b[0] {
      BelowAsWritten(a[1..], b[1..]);
      if k :| 0 <= k <= |a[1..]| && k < |b[1..]| && a[1..][..k] == b[1..][..k] && (k == |a[1..]| || a[1..][k] < b[1..][k]) {
        assert a[..k + 1] == [a[0]] + a[1..][..k] == b[..k + 1];
      }
      if k :| 0 <= k <= |a| && k < |b| && a[..k] == b[..k] && (k == |a| || a[k] < b[k]) {
        assert k > 0;
        assert a[1..][..k - 1] == a[..k][1..] && b[1..][..k - 1] == b[..k][1..];
      }
    } else if b != "" {
      assert a[..0] == b[..0];
      forall k | 0 < k <= |a| && k < |b| ensures a[..k] != b[..k] {
        assert a[..k][0] == a[0] && b[..k][0] == b[0];
      }
    }
  }

  ghost predicate Ascending(q: seq<string>) {
    forall i, j | 0 <= i < j < |q| :: Below(q[i], q[j])
  }

  method InsertKey(q: seq<string>, x: string) returns (r: seq<string>)
    requires Ascending(q) && x !in q
    ensures Ascending(r) && forall y :: y in r <==> y == x || y in q
  {
    var k := |q|;
    while k > 0 && Below(x, q[k - 1])
      invariant 0 <= k <= |q| && forall i | k <= i < |q| :: Below(x, q[i])
    {
      k := k - 1;
    }
    if k > 0 {
      BelowIsTotal(x, q[k - 1]);
    }
    forall i | 0 <= i < k ensures Below(q[i], x) {
      BelowIsStrict(q[i], q[k - 1], x);
    }
    r := q[..k] + [x] + q[k..];
    assert q == q[..k] + q[k..];
  }

  /** The members of a finite set, in ascending order. */
  method SortedKeys(s: set<string>) returns (q: seq<string>)
    ensures Ascending(q) && forall x :: x in q <==> x in s
  {
    q := [];
    var rest := s;
    while rest != {}
      invariant Ascending(q) && rest <= s && forall x :: x in q <==> x in s && x !in rest
    {
      var x :| x in rest;
      q := InsertKey(q, x);
      rest := rest - {x};
    }
  }
}
