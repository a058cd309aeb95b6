/** Task ids of a forum: the path grammar, decimal ordinals and their parsing. */
module ForumIds {
  import opened Outcomes
  import opened Text

  predicate Digit(c: char) { '0' <= c <= '9' }

  predicate Digits(s: string) { forall i :: 0 <= i < |s| ==> Digit(s[i]) }

  function DigitChar(d: nat): (c: char)
    requires d < 10
    ensures Digit(c) && c as int - '0' as int == d
  {
    ('0' as int + d) as char
  }

  /** The decimal numeral, without leading zeros. */
  function Decimal(n: nat): (s: string)
    ensures s != "" && Digits(s)
  {
    if n < 10 then [DigitChar(n)] else Decimal(n / 10) + [DigitChar(n % 10)]
  }

  function DigitsValue(s: string): nat
    requires Digits(s)
  {
    if s == "" then 0 else 10 * DigitsValue(s[..|s| - 1]) + (s[|s| - 1] as int - '0' as int)
  }

  lemma {:induction false} ValueOfDecimal(n: nat)
    ensures DigitsValue(Decimal(n)) == n
  {
    var s := Decimal(n);
    if n >= 10 {
      ValueOfDecimal(n / 10);
      assert s[..|s| - 1] == Decimal(n / 10);
    } else {
      assert s[..0] == "";
    }
  }

  /** The number of values of a 64-bit `usize`. */
  const USIZE := 0x1_0000_0000_0000_0000

  /** Wrapping 64-bit arithmetic. */
  function Wrap(n: nat): (r: nat)
    ensures r < USIZE && (n < USIZE ==> r == n)
  {
    n % USIZE
  }

  /** Parsing a `usize`: an optional plus sign, digits, and no overflow. */
  function ParseUsize(s: string): (r: Option<nat>)
    ensures r.Some? ==> r.value < USIZE
  {
    var digits := if s != "" && s[0] == '+' then s[1..] else s;
    if digits == "" || !Digits(digits) || DigitsValue(digits) >= USIZE then None else Some(DigitsValue(digits))
  }

  lemma ParseDecimal(n: nat)
    ensures ParseUsize(Decimal(n)) == if n < USIZE then Some(n) else None
  {
    ValueOfDecimal(n);
    assert Digit(Decimal(n)[0]);
  }

  predicate CrockfordChar(c: char) { Digit(c) || ('A' <= c <= 'Z' && c != 'I' && c != 'L' && c != 'O' && c != 'U') }

  /** Five Crockford characters, a letter among them. */
  predicate MintedStem(s: string) {
    |s| == 5 && (forall i :: 0 <= i < 5 ==> CrockfordChar(s[i])) && exists i :: 0 <= i < 5 && !Digit(s[i])
  }

  predicate TaskStem(s: string) { (s != "" && Digits(s)) || MintedStem(s) }

  function TaskPrefix(): string { "TASK-" }

  /** `TASK-` and a stem, then any number of `.` and digits. */
  predicate TaskPathId(s: string) {
    TaskPrefix() <= s
    && var parts := Split(s[|TaskPrefix()|..], '.');
    TaskStem(parts[0]) && forall i :: 1 <= i < |parts| ==> parts[i] != "" && Digits(parts[i])
  }

  predicate ForumId(s: string) { TaskPathId(s) && '.' !in s }

  predicate ArtifactId(s: string) { "ART-" <= s && MintedStem(s[4..]) }

  function ReportId(forum: string, ordinal: nat): string { forum + "." + Decimal(ordinal) }

  lemma DigitsHoldNoDot(s: string)
    requires Digits(s)
    ensures '.' !in s
  {
  }

  lemma SplitWhole(s: string, sep: char)
    requires sep !in s
    ensures Split(s, sep) == [s]
  {
    SplitAtom(s, "", sep);
    assert s + "" == s;
  }

  /** A report id is a task path id below its forum. */
  lemma ReportIdIsPath(forum: string, ordinal: nat)
    requires ForumId(forum)
    ensures TaskPathId(ReportId(forum, ordinal)) && forum + "." <= ReportId(forum, ordinal)
  {
    var n, stem := Decimal(ordinal), forum[|TaskPrefix()|..];
    hide Decimal, TaskStem, Split;
    assert '.' !in stem;
    SplitWhole(stem, '.');
    DigitsHoldNoDot(n);
    SplitWhole(n, '.');
    SplitFront(stem, n, '.');
    assert ReportId(forum, ordinal)[|TaskPrefix()|..] == stem + (['.'] + n);
    assert [stem] + [n] == [stem, n];
  }

  /** The part behind the last dot. */
  function LastPart(s: string): Option<string> {
    if s == "" then None
    else if s[|s| - 1] == '.' then Some("")
    else
      var front := LastPart(s[..|s| - 1]);
      if front.None? then None else Some(front.value + [s[|s| - 1]])
  }

  function OrdinalOf(task: string): (r: Option<nat>)
    ensures r.Some? ==> r.value < USIZE
  {
    var part := LastPart(task);
    if part.None? then None else ParseUsize(part.value)
  }

  lemma {:induction false} LastPartOf(front: string, n: string)
    requires '.' !in n
    ensures LastPart(front + "." + n) == Some(n)
  {
    var s := front + "." + n;
    if n == "" {
      assert s[|s| - 1] == '.';
    } else {
      var m := n[..|n| - 1];
      assert s[..|s| - 1] == front + "." + m && s[|s| - 1] == n[|n| - 1] && n == m + [n[|n| - 1]];
      LastPartOf(front, m);
    }
  }

  /** The ordinal of a report id is read back. */
  lemma OrdinalOfReportId(forum: string, ordinal: nat)
    ensures OrdinalOf(ReportId(forum, ordinal)) == if ordinal < USIZE then Some(ordinal) else None
  {
    hide Decimal, LastPart, ParseUsize;
    DigitsHoldNoDot(Decimal(ordinal));
    LastPartOf(forum, Decimal(ordinal));
    ParseDecimal(ordinal);
  }

  /** The highest ordinal among task ids; ids without a readable one are passed over. */
  function MaxOrdinal(tasks: seq<string>): (r: nat)
    ensures r < USIZE && forall t :: t in tasks && OrdinalOf(t).Some? ==> OrdinalOf(t).value <= r
  {
    if tasks == [] then 0
    else
      var rest := MaxOrdinal(tasks[1..]);
      var first := OrdinalOf(tasks[0]);
      if first.Some? && first.value > rest then first.value else rest
  }

  lemma {:induction false} MaxOrdinalIsTaken(tasks: seq<string>)
    ensures MaxOrdinal(tasks) == 0 || exists t :: t in tasks && OrdinalOf(t) == Some(MaxOrdinal(tasks))
  {
    hide OrdinalOf;
    if tasks != [] { MaxOrdinalIsTaken(tasks[1..]); }
  }

  function NextOrdinal(tasks: seq<string>): nat { Wrap(MaxOrdinal(tasks) + 1) }

  /** The ids a stage allocates from ordinal `first` on, in wrapping arithmetic. */
  function StageIds(forum: string, first: nat, n: nat): (ids: seq<string>)
    ensures |ids| == n && forall i :: 0 <= i < n ==> ids[i] == ReportId(forum, Wrap(first + i))
  {
    seq(n, i requires 0 <= i < n => ReportId(forum, Wrap(first + i)))
  }

  predicate Distinct<T(==)>(s: seq<T>) { forall i, j :: 0 <= i < j < |s| ==> s[i] != s[j] }

  /** An id whose ordinal lies above every readable one is not among the tasks. */
  lemma AboveIsFresh(forum: string, tasks: seq<string>, ordinal: nat)
    requires MaxOrdinal(tasks) < ordinal < USIZE
    ensures ReportId(forum, ordinal) !in tasks
  {
    OrdinalOfReportId(forum, ordinal);
  }

  /** No ordinal the next `n` ids would wrap around to is taken. */
  predicate NoneWrapsToTaken(forum: string, tasks: seq<string>, n: nat) {
    forall k :: 0 <= k <= MaxOrdinal(tasks) + n - USIZE ==> ReportId(forum, k) !in tasks
  }

  /** Freshness, exactly: the allocated ids differ from each other and from every
      recorded one if and only if there are at most 2^64 of them and none wraps
      around to the ordinal of a recorded task of the forum. */
  lemma {:induction false} StageIdsFresh(forum: string, tasks: seq<string>, n: nat)
    ensures var ids := StageIds(forum, NextOrdinal(tasks), n);
      (Distinct(ids) && forall t :: t in ids ==> t !in tasks) <==> n <= USIZE && NoneWrapsToTaken(forum, tasks, n)
  {
    var ids, max := StageIds(forum, NextOrdinal(tasks), n), MaxOrdinal(tasks);
    StageIdsAre(forum, tasks, n);
    hide MaxOrdinal, ReportId, OrdinalOf, StageIds, NextOrdinal, Wrap;
    if n > USIZE {
      WrapsAround(max + 1);
      assert ids[0] == ids[USIZE];
    } else {
      DistinctWhen(forum, ids, max);
      forall i | 0 <= i < n && max + 1 + i < USIZE ensures ids[i] !in tasks {
        WrapBelow(max + 1 + i);
        AboveIsFresh(forum, tasks, max + 1 + i);
      }
      forall i | 0 <= i < n && max + 1 + i >= USIZE ensures ids[i] == ReportId(forum, max + 1 + i - USIZE) {
        WrapOnce(max + 1 + i);
      }
      hide Distinct;
      if NoneWrapsToTaken(forum, tasks, n) {
        forall t | t in ids ensures t !in tasks {
          var i :| 0 <= i < n && ids[i] == t;
        }
      } else {
        var k :| 0 <= k <= max + n - USIZE && ReportId(forum, k) in tasks;
        assert ids[k + USIZE - max - 1] == ReportId(forum, k);
      }
    }
  }

  lemma {:induction false} StageIdsAre(forum: string, tasks: seq<string>, n: nat)
    ensures var ids := StageIds(forum, NextOrdinal(tasks), n);
      |ids| == n && forall i :: 0 <= i < n ==> ids[i] == ReportId(forum, Wrap(MaxOrdinal(tasks) + 1 + i))
  {
    var ids := StageIds(forum, NextOrdinal(tasks), n);
    hide MaxOrdinal, ReportId, StageIds;
    forall i | 0 <= i < n ensures ids[i] == ReportId(forum, Wrap(MaxOrdinal(tasks) + 1 + i)) { WrapTwice(MaxOrdinal(tasks) + 1, i); }
  }

  lemma {:induction false} WrapTwice(a: nat, i: nat)
    requires a <= USIZE
    ensures Wrap(Wrap(a) + i) == Wrap(a + i)
  {
    if a == USIZE { WrapsAround(i); }
  }

  lemma {:induction false} WrapsAround(a: nat)
    ensures Wrap(a + USIZE) == Wrap(a)
  {
  }

  lemma {:induction false} WrapBelow(a: nat)
    requires a < USIZE
    ensures Wrap(a) == a
  {
  }

  lemma {:induction false} WrapOnce(a: nat)
    requires USIZE <= a < 2 * USIZE
    ensures Wrap(a) == a - USIZE
  {
    WrapsAround(a - USIZE);
  }

  /** Up to 2^64 ids in a row all differ. */
  lemma {:induction false} DistinctWhen(forum: string, ids: seq<string>, max: nat)
    requires |ids| <= USIZE && max < USIZE && forall i :: 0 <= i < |ids| ==> ids[i] == ReportId(forum, Wrap(max + 1 + i))
    ensures Distinct(ids)
  {
    hide ReportId, OrdinalOf, Wrap;
    forall i, j | 0 <= i < j < |ids| ensures ids[i] != ids[j] {
      OrdinalOfReportId(forum, Wrap(max + 1 + i));
      OrdinalOfReportId(forum, Wrap(max + 1 + j));
      WrapDiffers(max + 1 + i, max + 1 + j);
    }
  }

  lemma {:induction false} WrapDiffers(a: nat, b: nat)
    requires a < b < a + USIZE && b < 2 * USIZE + 1
    ensures Wrap(a) != Wrap(b)
  {
    if b < USIZE {
      WrapBelow(a);
      WrapBelow(b);
    } else if b < 2 * USIZE {
      WrapOnce(b);
      if a < USIZE { WrapBelow(a); } else { WrapOnce(a); }
    }
  }
}
