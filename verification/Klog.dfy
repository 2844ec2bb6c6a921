/** klog.c: the circular log buffer and the unbounded log it is a window on. */
module Klog {

  const KLOG_LINES: nat := 64
  const KLOG_LINE_SIZE: nat := 42

  // ---------- the unbounded log ----------

  /** All lines since the start; the last one is being filled. */
  type Log = seq<string>

  /** One character: a newline ends the line, and so does a character that fills it. */
  function Put(log: Log, c: char): (r: Log)
    requires log != []
    ensures r != []
  {
    var last := |log| - 1;
    if c == '\n' then log + [""]
    else if |log[last]| + 1 >= KLOG_LINE_SIZE then log[last := log[last] + [c]] + [""]
    else log[last := log[last] + [c]]
  }

  function Print(log: Log, s: string): (r: Log)
    requires log != []
    ensures r != []
    decreases |s|
  {
    if s == "" then log else Print(Put(log, s[0]), s[1..])
  }

  /** No line is longer than a row and the last one has room. */
  predicate Wrapped(log: Log) {
    log != [] && (forall n | 0 <= n < |log| :: |log[n]| <= KLOG_LINE_SIZE) && |log[|log|-1]| < KLOG_LINE_SIZE
  }

  lemma {:induction false} PrintWraps(log: Log, s: string)
    requires Wrapped(log)
    ensures Wrapped(Print(log, s)) && |log| <= |Print(log, s)|
    decreases |s|
  {
    if s != "" { PrintWraps(Put(log, s[0]), s[1..]); }
  }

  function Joined(log: Log): string {
    if log == [] then "" else Joined(log[..|log|-1]) + log[|log|-1]
  }

  function WithoutNewlines(s: string): string {
    if s == "" then "" else (if s[0] == '\n' then "" else [s[0]]) + WithoutNewlines(s[1..])
  }

  lemma PutJoined(log: Log, c: char)
    requires log != []
    ensures Joined(Put(log, c)) == Joined(log) + (if c == '\n' then "" else [c])
  {
    var last := |log| - 1;
    var longer := log[last := log[last] + [c]];
    assert longer[..last] == log[..last];
    assert Joined(longer) == Joined(log) + [c];
    assert (log + [""])[..last+1] == log && (longer + [""])[..last+1] == longer;
  }

  /** Nothing printed is lost in the unbounded log, and nothing but line ends is added. */
  lemma {:induction false} PrintJoined(log: Log, s: string)
    requires log != []
    ensures Joined(Print(log, s)) == Joined(log) + WithoutNewlines(s)
    decreases |s|
  {
    if s != "" {
      PutJoined(log, s[0]);
      PrintJoined(Put(log, s[0]), s[1..]);
    }
  }

  lemma {:induction false} PrintTwice(log: Log, s: string, t: string)
    requires log != []
    ensures Print(Print(log, s), t) == Print(log, s + t)
    decreases |s|
  {
    if s != "" {
      assert (s + t)[1..] == s[1..] + t;
      PrintTwice(Put(log, s[0]), s[1..], t);
    } else {
      assert s + t == t;
    }
  }

  lemma PrintThenPut(log: Log, s: string, c: char)
    requires log != []
    ensures Print(log, s + [c]) == Put(Print(log, s), c)
    ensures s == "" ==> s + [c] == [c]
  {
    PrintTwice(log, s, [c]);
    assert [c][1..] == "";
  }

  /** A newline starts a line. */
  lemma PrintNewline(log: Log, s: string)
    requires log != []
    ensures Print(log, s + "\n") == Print(log, s) + [""]
  {
    PrintThenPut(log, s, '\n');
  }

  /** t goes on in the last line of log and fills one line after the other; the lines before are as they were. */
  predicate Continues(log: Log, t: Log)
    requires log != []
  {
    var last := |log| - 1;
    && |log| <= |t| && t[..last] == log[..last] && log[last] <= t[last]
    && (forall i | last <= i < |t| - 1 :: |t[i]| == KLOG_LINE_SIZE) && |t[|t|-1]| < KLOG_LINE_SIZE
  }

  lemma ContinuesOn(log: Log, r: Log, t: Log)
    requires log != [] && r != [] && Continues(log, r) && Continues(r, t)
    ensures Continues(log, t)
  {
    var last := |log| - 1;
    forall i | 0 <= i < |r| - 1 ensures t[i] == r[i] { assert t[..|r|-1][i] == r[..|r|-1][i]; }
    forall i | 0 <= i < last ensures t[i] == log[i] { assert r[..last][i] == log[..last][i]; }
    assert t[..last] == log[..last];
  }

  lemma PutContinues(log: Log, c: char)
    requires Wrapped(log) && c != '\n'
    ensures Wrapped(Put(log, c)) && Continues(log, Put(log, c))
  {
  }

  lemma {:induction false} NoNewlines(s: string)
    requires '\n' !in s
    ensures WithoutNewlines(s) == s
  {
    if s != "" { NoNewlines(s[1..]); }
  }

  lemma {:induction false} PrintContinues(log: Log, s: string)
    requires Wrapped(log) && '\n' !in s
    ensures Continues(log, Print(log, s))
    decreases |s|
  {
    if s != "" {
      PutContinues(log, s[0]);
      PrintContinues(Put(log, s[0]), s[1..]);
      ContinuesOn(log, Put(log, s[0]), Print(log, s));
    }
  }

  /** Without a newline a line ends only when it is full. */
  lemma PrintFills(log: Log, s: string)
    requires Wrapped(log) && '\n' !in s
    ensures Continues(log, Print(log, s)) && Joined(Print(log, s)) == Joined(log) + s
  {
    PrintContinues(log, s);
    PrintJoined(log, s);
    NoNewlines(s);
  }

  // ---------- the window ----------

  /** The latest of the first count lines that goes to row r, negative if there is none. */
  function LineOfRow(count: nat, r: int): int
    requires count > 0
  {
    count - 1 - (count - 1 - r) % KLOG_LINES
  }

  lemma NextLineOfRow(count: nat, r: int)
    requires count > 0 && 0 <= r < KLOG_LINES
    ensures LineOfRow(count + 1, r) == if r == count % KLOG_LINES then count as int else LineOfRow(count, r)
  {
    var d := (count - r) % KLOG_LINES;
    var q := (count - r) / KLOG_LINES;
    assert count - r == q * KLOG_LINES + d;
    if d == 0 {
      assert count == q * KLOG_LINES + r;
    } else {
      assert count - 1 - r == q * KLOG_LINES + (d - 1);
    }
  }

  /** What row r shows in column c: its line, padded with blanks; line 0 and rows never reached are padded
      with zeros, because they were never blanked. */
  function Cell(log: Log, r: int, c: int): char
    requires log != [] && 0 <= c
  {
    var n := LineOfRow(|log|, r);
    if n < 0 || n >= |log| then '\0'
    else if c < |log[n]| then log[n][c]
    else if n == 0 then '\0'
    else ' '
  }

  class Buffer {
    var lineIndex: nat
    var charIndex: nat
    const cells: array2<char>
    ghost var log: Log

    /** The rows show the last lines of log, and the line index names the row of the last one. */
    ghost predicate Shows()
      reads this, cells
    {
      && cells.Length0 == KLOG_LINES && cells.Length1 == KLOG_LINE_SIZE
      && log != [] && (forall n | 0 <= n < |log| :: |log[n]| <= KLOG_LINE_SIZE)
      && lineIndex == (|log| - 1) % KLOG_LINES
      && forall r, c | 0 <= r < KLOG_LINES && 0 <= c < KLOG_LINE_SIZE :: cells[r, c] == Cell(log, r, c)
    }

    ghost predicate Valid()
      reads this, cells
    {
      Shows() && charIndex == |log[|log|-1]| < KLOG_LINE_SIZE
    }

    constructor ()
      ensures Valid() && log == [""] && fresh(cells)
    {
      cells := new char[KLOG_LINES, KLOG_LINE_SIZE]((_, _) => '\0');
      lineIndex, charIndex := 0, 0;
      log := [""];
      new;
      forall r | 0 <= r < KLOG_LINES ensures LineOfRow(1, r) <= 0 {
        if r == 0 { assert LineOfRow(1, 0) == 0; }
      }
    }

    /** next_line: the row that comes next is blanked. */
    method NextLine()
      requires Shows()
      modifies this`lineIndex, this`charIndex, this`log, cells
      ensures Valid() && log == old(log) + [""]
    {
      ghost var before := log;
      lineIndex := (lineIndex + 1) % KLOG_LINES;
      charIndex := 0;
      log := log + [""];
      var i := 0;
      while i < KLOG_LINE_SIZE
        modifies cells
        invariant 0 <= i <= KLOG_LINE_SIZE
        invariant forall r, c | 0 <= r < KLOG_LINES && 0 <= c < KLOG_LINE_SIZE ::
                    cells[r, c] == if r == lineIndex && c < i then ' ' else old(cells[r, c])
      {
        cells[lineIndex, i] := ' ';
        i := i + 1;
      }
      NextRow(|before|);
      forall r, c | 0 <= r < KLOG_LINES && 0 <= c < KLOG_LINE_SIZE ensures cells[r, c] == Cell(log, r, c) {
        NextLineOfRow(|before|, r);
      }
    }

    /** next_char: one more character counts, and a full line ends. */
    method NextChar()
      requires Shows() && charIndex + 1 == |log[|log|-1]|
      modifies this`lineIndex, this`charIndex, this`log, cells
      ensures Valid()
      ensures log == if |old(log)[|old(log)|-1]| >= KLOG_LINE_SIZE then old(log) + [""] else old(log)
    {
      charIndex := charIndex + 1;
      if charIndex >= KLOG_LINE_SIZE {
        charIndex := 0;
        NextLine();
      }
    }

    /** The store before each next_char. */
    method PutChar(c: char)
      requires Valid() && c != '\n'
      modifies this`lineIndex, this`charIndex, this`log, cells
      ensures Valid() && log == Put(old(log), c)
    {
      ghost var last := |log| - 1;
      ThisRow(|log|);
      cells[lineIndex, charIndex] := c;
      log := log[last := log[last] + [c]];
      forall r, i | 0 <= r < KLOG_LINES && 0 <= i < KLOG_LINE_SIZE ensures cells[r, i] == Cell(log, r, i) {
        if LineOfRow(|log|, r) == last { RowOfLine(|log|, r); }
      }
      NextChar();
    }

    /** klog_print. */
    method KlogPrint(str: string)
      requires Valid()
      modifies this`lineIndex, this`charIndex, this`log, cells
      ensures Valid() && log == Print(old(log), str)
    {
      var i := 0;
      while i < |str|
        invariant 0 <= i <= |str| && Valid() && log == Print(old(log), str[..i])
      {
        PrintThenPut(old(log), str[..i], str[i]);
        if str[i] == '\n' {
          NextLine();
        } else {
          PutChar(str[i]);
        }
        assert str[..i] + [str[i]] == str[..i+1];
        i := i + 1;
      }
      assert str[..i] == str;
    }

    /** klog_print_hex: a loop that prints at least one digit. */
    method KlogPrintHex(num: nat)
      requires Valid()
      modifies this`lineIndex, this`charIndex, this`log, cells
      ensures Valid() && log == Print(old(log), HexDigits(num))
    {
      var n := num;
      ghost var done := "";
      var more := true;
      while more
        invariant Valid() && log == Print(old(log), done)
        invariant HexDigits(num) == done + (if more then HexDigits(n) else "")
        decreases more, n
      {
        PrintThenPut(old(log), done, HexDigit(n % 16));
        HexStep(n, done);
        PutChar(HexDigit(n % 16));
        done := done + [HexDigit(n % 16)];
        n := n / 16;
        more := n > 0;
      }
      assert done + "" == done;
    }

    /** klog_print_dec. */
    method KlogPrintDec(num: nat)
      requires Valid()
      modifies this`lineIndex, this`charIndex, this`log, cells
      ensures Valid() && log == Print(old(log), DecDigits(num))
    {
      if num < 10 {
        PrintThenPut(log, "", DecDigit(num % 10));
        PutChar(DecDigit(num % 10));
      } else {
        var low := num % 10;
        PrintThenPut(log, "", DecDigit(num / 10 % 10));
        PrintThenPut(log, [DecDigit(num / 10 % 10)], DecDigit(low));
        PutChar(DecDigit(num / 10 % 10));
        PutChar(DecDigit(low));
        assert [DecDigit(num / 10 % 10)] + [DecDigit(low)] == DecDigits(num);
      }
    }

    /** The buffer holds the last 64 lines of the log, one to a row; only line 0 is padded with zeros. */
    lemma LastLines(n: int, c: int)
      requires Valid() && 0 <= n && |log| - KLOG_LINES <= n < |log| && 0 <= c < KLOG_LINE_SIZE
      ensures cells[n % KLOG_LINES, c] ==
        if c < |log[n]| then log[n][c] else if n == 0 then '\0' else ' '
    {
      RowHasLine(|log|, n);
    }

    /** Rows that no line has reached are still zero. */
    lemma UnusedRows(r: int, c: int)
      requires Valid() && |log| <= r < KLOG_LINES && 0 <= c < KLOG_LINE_SIZE
      ensures cells[r, c] == '\0'
    {
      assert (|log| - 1 - r) % KLOG_LINES == |log| - 1 - r + KLOG_LINES;
    }
  }

  lemma RowHasLine(count: nat, n: nat)
    requires count - KLOG_LINES <= n < count
    ensures LineOfRow(count, n % KLOG_LINES) == n
  {
    var q, r := n / KLOG_LINES, n % KLOG_LINES;
    var d := count - 1 - n;
    assert count - 1 - r == q * KLOG_LINES + d;
  }

  /** The last line is in the row that the line index names, and in no other. */
  lemma RowOfLine(count: nat, r: int)
    requires count > 0 && 0 <= r < KLOG_LINES && LineOfRow(count, r) == count - 1
    ensures r == (count - 1) % KLOG_LINES
  {
  }

  lemma ThisRow(count: nat)
    requires count > 0
    ensures LineOfRow(count, (count - 1) % KLOG_LINES) == count - 1
  {
    RowHasLine(count, count - 1);
  }

  lemma NextRow(count: nat)
    requires count > 0
    ensures ((count - 1) % KLOG_LINES + 1) % KLOG_LINES == count % KLOG_LINES
  {
  }

  // ---------- numbers ----------

  const HEX := "0123456789ABCDEF"
  const DEC := "0123456789"

  function DigitValue(c: char): nat {
    if '0' <= c <= '9' then c as nat - '0' as nat else if 'A' <= c <= 'F' then c as nat - 'A' as nat + 10 else 0
  }

  function HexDigit(d: nat): (c: char)
    requires d < 16
    ensures c != '\n' && DigitValue(c) == d && (c == '0' <==> d == 0)
  {
    HEX[d]
  }

  function DecDigit(d: nat): (c: char)
    requires d < 10
    ensures c != '\n' && DigitValue(c) == d && (c == '0' <==> d == 0)
  {
    DEC[d]
  }

  /** The digits klog_print_hex prints, least significant first. */
  function HexDigits(n: nat): string {
    [HexDigit(n % 16)] + (if n / 16 > 0 then HexDigits(n / 16) else "")
  }

  lemma HexStep(n: nat, done: string)
    ensures done + HexDigits(n) == (done + [HexDigit(n % 16)]) + (if n / 16 > 0 then HexDigits(n / 16) else "")
  {
  }

  /** The digits klog_print_dec prints, most significant first. */
  function DecDigits(n: nat): string {
    if n < 10 then [DecDigit(n)] else [DecDigit(n / 10 % 10), DecDigit(n % 10)]
  }

  /** A string of digits read from its least significant end, the first character. */
  function HexValue(s: string): nat {
    if s == "" then 0 else DigitValue(s[0]) + 16 * HexValue(s[1..])
  }

  /** A string of digits read the usual way round. */
  function DecValue(s: string): nat {
    if s == "" then 0 else 10 * DecValue(s[..|s|-1]) + DigitValue(s[|s|-1])
  }

  /** A printed address, read backwards, is the address; it has no superfluous zeros. */
  lemma {:induction false} HexDecodes(n: nat)
    ensures HexValue(HexDigits(n)) == n && '\n' !in HexDigits(n)
    ensures |HexDigits(n)| > 1 ==> HexDigits(n)[|HexDigits(n)|-1] != '0'
  {
    var s := HexDigits(n);
    if n / 16 > 0 {
      HexDecodes(n / 16);
      assert s[1..] == HexDigits(n / 16);
      if n / 16 < 16 { assert HexDigits(n / 16) == [HexDigit(n / 16)]; }
    } else {
      assert s[1..] == "";
    }
  }

  /** The decimal form is that of the last two digits, without a superfluous zero below 10; so it is right exactly for
      numbers of one or two digits. */
  lemma DecDecodesIff(n: nat)
    ensures DecValue(DecDigits(n)) == n % 100 && |DecDigits(n)| == if n < 10 then 1 else 2
    ensures DecValue(DecDigits(n)) == n <==> n < 100
  {
    var s := DecDigits(n);
    if n < 10 {
      assert s[..0] == "";
      assert DecValue("") == 0;
    } else {
      assert s[..1] == [DecDigit(n / 10 % 10)] && s[..1][..0] == "";
      assert DecValue(s[..1]) == n / 10 % 10;
    }
  }
}
