/** The names of a task's log files: how they are printed and how they are read back. */
module LogNames {
  import opened Wrappers

  const MAX_I32: int := 0x7FFF_FFFF

  predicate IsDigit(c: char) { '0' <= c <= '9' }

  predicate IsHex(c: char) { IsDigit(c) || 'a' <= c <= 'f' || 'A' <= c <= 'F' }

  predicate AllDigits(s: string) {
    forall i :: 0 <= i < |s| ==> IsDigit(s[i])
  }

  /** The textual form of a UUID, section 3 of RFC 4122. */
  predicate IsUuid(s: string) {
    && |s| == 36
    && forall i :: 0 <= i < 36 ==> if i == 8 || i == 13 || i == 18 || i == 23 then s[i] == '-' else IsHex(s[i])
  }

  /** Five groups of hexadecimal digits, in either case, of 8, 4, 4, 4 and 12. */
  ghost predicate IsGrouped(s: string, a: string, b: string, c: string, d: string, e: string) {
    && s == a + "-" + b + "-" + c + "-" + d + "-" + e
    && |a| == 8 && |b| == |c| == |d| == 4 && |e| == 12
    && forall h :: h in a + b + c + d + e ==> h in "0123456789abcdefABCDEF"
  }

  lemma HexIs(c: char)
    ensures IsHex(c) <==> c in "0123456789abcdefABCDEF"
  {
    var digits := "0123456789abcdefABCDEF";
    if '0' <= c <= '9' {
      assert digits[c as int - '0' as int] == c;
    } else if 'a' <= c <= 'f' {
      assert digits[c as int - 'a' as int + 10] == c;
    } else if 'A' <= c <= 'F' {
      assert digits[c as int - 'A' as int + 16] == c;
    }
  }

  lemma UuidIff(s: string)
    ensures IsUuid(s) <==> exists a, b, c, d, e :: IsGrouped(s, a, b, c, d, e)
  {
    if IsUuid(s) {
      UuidIsGrouped(s);
    }
    if a, b, c, d, e :| IsGrouped(s, a, b, c, d, e) {
      GroupedIsUuid(s, a, b, c, d, e);
    }
  }

  lemma UuidIsGrouped(s: string)
    requires IsUuid(s)
    ensures IsGrouped(s, s[..8], s[9..13], s[14..18], s[19..23], s[24..])
  {
    var a, b, c, d, e := s[..8], s[9..13], s[14..18], s[19..23], s[24..];
    assert s == a + "-" + b + "-" + c + "-" + d + "-" + e;
    var all := a + b + c + d + e;
    forall h | h in all ensures h in "0123456789abcdefABCDEF" {
      var i :| 0 <= i < |all| && all[i] == h;
      assert h == s[if i < 8 then i else if i < 12 then i + 1 else if i < 16 then i + 2 else if i < 20 then i + 3
        else i + 4];
      HexIs(h);
    }
  }

  lemma GroupedIsUuid(s: string, a: string, b: string, c: string, d: string, e: string)
    requires IsGrouped(s, a, b, c, d, e)
    ensures IsUuid(s)
  {
    var all := a + b + c + d + e;
    forall i | 0 <= i < 36 && i != 8 && i != 13 && i != 18 && i != 23 ensures IsHex(s[i]) {
      var k := if i < 8 then i else if i < 13 then i - 1 else if i < 18 then i - 2 else if i < 23 then i - 3 else i - 4;
      assert s[i] == all[k] && all[k] in all;
      HexIs(s[i]);
    }
  }

  // ---------------------------------------------------------------------------------------------
  // Numbers

  function DigitOf(d: nat): (c: char)
    requires d < 10
    ensures IsDigit(c)
  {
    ('0' as int + d) as char
  }

  function ValueOf(c: char): (d: nat)
    requires IsDigit(c)
    ensures d < 10
  {
    c as int - '0' as int
  }

  function Decimal(n: nat): (s: string)
    ensures |s| > 0 && AllDigits(s)
  {
    if n < 10 then [DigitOf(n)] else Decimal(n / 10) + [DigitOf(n % 10)]
  }

  function ParseDecimal(s: string): nat
    requires AllDigits(s)
  {
    if s == "" then 0 else 10 * ParseDecimal(s[..|s| - 1]) + ValueOf(s[|s| - 1])
  }

  lemma {:induction false} DecimalParses(n: nat)
    ensures ParseDecimal(Decimal(n)) == n
  {
    var s := Decimal(n);
    if n >= 10 {
      DecimalParses(n / 10);
      assert s[..|s| - 1] == Decimal(n / 10);
    } else {
      assert s[..|s| - 1] == "";
    }
  }

  /** A number as it is put into a file name. */
  function Printed(n: int): string {
    if n < 0 then "-" + Decimal(-n) else Decimal(n)
  }

  // ---------------------------------------------------------------------------------------------
  // The two patterns

  function DigitRun(s: string): (n: nat)
    ensures n <= |s| && AllDigits(s[..n]) && (n < |s| ==> !IsDigit(s[n]))
  {
    if s == "" || !IsDigit(s[0]) then 0
    else
      var n := DigitRun(s[1..]);
      assert s[..n + 1] == [s[0]] + s[1..][..n];
      n + 1
  }

  const UUID_OUT := 41

  /** What the pattern for numbered logs captures. The pattern is not anchored at the end of the name. */
  function Captured(name: string, task: string): (digits: Option<string>)
    ensures digits.Some? ==> |digits.value| > 0 && AllDigits(digits.value)
  {
    if !(task + "." <= name) then None
    else
      var rest := name[|task| + 1..];
      var n := DigitRun(rest);
      if n > 0 && n + UUID_OUT <= |rest| && rest[n] == '.' && IsUuid(rest[n + 1..n + 37])
        && rest[n + 37..n + UUID_OUT] == ".out"
      then Some(rest[..n])
      else None
  }

  /** The pattern for numbered logs, as a language. */
  ghost predicate InFormat(name: string, task: string, digits: string) {
    exists uuid, rest :: IsNumbered(name, task, digits, uuid, rest)
  }

  ghost predicate IsNumbered(name: string, task: string, digits: string, uuid: string, rest: string) {
    && digits != "" && AllDigits(digits) && IsUuid(uuid)
    && name == task + "." + (digits + "." + uuid + ".out" + rest)
  }

  predicate IsLegacy(name: string, task: string) { task + ".out" <= name }

  lemma {:induction false} DigitRunIs(digits: string, s: string)
    requires AllDigits(digits) && (s != "" ==> !IsDigit(s[0]))
    ensures DigitRun(digits + s) == |digits|
  {
    if digits == "" {
      assert digits + s == s;
    } else {
      assert (digits + s)[1..] == digits[1..] + s;
      DigitRunIs(digits[1..], s);
    }
  }

  lemma AfterHead(task: string, rest: string)
    ensures task + "." <= task + "." + rest && (task + "." + rest)[|task| + 1..] == rest
  {
  }

  lemma NumberedIsCaptured(name: string, task: string, digits: string, uuid: string, rest: string)
    requires IsNumbered(name, task, digits, uuid, rest)
    ensures Captured(name, task) == Some(digits)
  {
    var tail := "." + uuid + ".out" + rest;
    var after := digits + "." + uuid + ".out" + rest;
    assert after == digits + tail;
    AfterHead(task, after);
    DigitRunIs(digits, tail);
    var n := |digits|;
    assert after[n] == '.' && after[n + 1..n + 37] == uuid && after[n + 37..n + UUID_OUT] == ".out"
      && after[..n] == digits;
  }

  /** The pattern captures a number exactly from the names of its language. */
  lemma CapturedIff(name: string, task: string, digits: string)
    ensures Captured(name, task) == Some(digits) <==> InFormat(name, task, digits)
  {
    if Captured(name, task) == Some(digits) {
      var after := name[|task| + 1..];
      var n := |digits|;
      assert name == task + "." + after;
      assert after == after[..n] + "." + after[n + 1..n + 37] + ".out" + after[n + UUID_OUT..];
      assert IsNumbered(name, task, digits, after[n + 1..n + 37], after[n + UUID_OUT..]);
    }
    if InFormat(name, task, digits) {
      var uuid, rest :| IsNumbered(name, task, digits, uuid, rest);
      NumberedIsCaptured(name, task, digits, uuid, rest);
    }
  }

  /** The number a file stands for among the runs of a task. A captured number too large for 32 bits stands for
      none, and the other pattern is then not tried. */
  function RecordOf(name: string, task: string): Option<int> {
    match Captured(name, task)
    case Some(digits) => if ParseDecimal(digits) <= MAX_I32 then Some(ParseDecimal(digits)) else None
    case None => if IsLegacy(name, task) then Some(0) else None
  }

  // ---------------------------------------------------------------------------------------------
  // Round trip

  function LogName(task: string, number: int, podUid: string): string {
    task + "." + (Printed(number) + "." + podUid + ".out")
  }

  predicate NoDot(s: string) {
    forall i :: 0 <= i < |s| ==> s[i] != '.'
  }

  function FirstDot(s: string): nat {
    if s == "" || s[0] == '.' then 0 else 1 + FirstDot(s[1..])
  }

  lemma {:induction false} FirstDotAfter(head: string, rest: string)
    requires NoDot(head)
    ensures FirstDot(head + "." + rest) == |head|
  {
    var s := head + "." + rest;
    if head == "" {
      assert s[0] == '.';
    } else {
      assert s[1..] == head[1..] + "." + rest;
      FirstDotAfter(head[1..], rest);
    }
  }

  lemma SameHead(a: string, x: string, b: string)
    requires NoDot(a) && NoDot(b) && b + "." <= a + "." + x
    ensures a == b
  {
    var name := a + "." + x;
    var y := name[|b| + 1..];
    assert name == b + "." + y;
    FirstDotAfter(a, x);
    FirstDotAfter(b, y);
    assert a == name[..|a|] && b == name[..|b|];
  }

  lemma LegacyHead(name: string, task: string)
    requires IsLegacy(name, task)
    ensures task + "." <= name
  {
  }

  /** A printed name is read back as its number by its own task's pattern, and is matched by neither pattern of
      any other task. */
  lemma LogNameRoundTrip(task: string, number: int, uuid: string, other: string)
    requires NoDot(task) && NoDot(other) && 0 <= number <= MAX_I32 && IsUuid(uuid)
    ensures RecordOf(LogName(task, number, uuid), task) == Some(number)
    ensures other != task ==>
      Captured(LogName(task, number, uuid), other) == None && !IsLegacy(LogName(task, number, uuid), other)
  {
    var name, digits := LogName(task, number, uuid), Decimal(number);
    DecimalParses(number);
    assert digits + "." + uuid + ".out" + "" == digits + "." + uuid + ".out";
    assert IsNumbered(name, task, digits, uuid, "");
    NumberedIsCaptured(name, task, digits, uuid, "");
    if IsLegacy(name, other) {
      LegacyHead(name, other);
    }
    if other + "." <= name {
      SameHead(task, digits + "." + uuid + ".out", other);
    }
  }

  /** The script a launch leaves beside its log is taken for a log of no task. */
  lemma ScriptIsNoLog(task: string, other: string)
    requires NoDot(task) && NoDot(other)
    ensures RecordOf(task + ".sh", other) == None
  {
    var name := task + ".sh";
    assert name == task + "." + "sh";
    if IsLegacy(name, other) {
      LegacyHead(name, other);
    }
    if other + "." <= name {
      SameHead(task, "sh", other);
      assert name[|task| + 1..] == "sh";
    }
  }
}
