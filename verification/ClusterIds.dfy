/** The cluster id of a job execution, and how it is read back from a task id (scale/job/models.py). */
module ClusterIds {
  /** `JOB_TASK_ID_PREFIX` */
  const PREFIX := "scale_job"

  /** Python's `split('_')`. */
  function Split(s: string): (r: seq<string>)
    ensures r != []
  {
    if s == "" then [""]
    else if s[0] == '_' then [""] + Split(s[1..])
    else var rest := Split(s[1..]); [[s[0]] + rest[0]] + rest[1..]
  }

  /** Python's `'_'.join`. */
  function Join(parts: seq<string>): (r: string) {
    if parts == [] then "" else if |parts| == 1 then parts[0] else parts[0] + "_" + Join(parts[1..])
  }

  /** `parse_cluster_id`: the first four segments. */
  function ParseClusterId(taskId: string): (r: string) {
    var segments := Split(taskId);
    Join(if |segments| > 4 then segments[..4] else segments)
  }

  predicate IsDigit(c: char) { '0' <= c <= '9' }

  function Digit(d: int): (c: char)
    requires 0 <= d < 10
    ensures IsDigit(c)
  {
    "0123456789"[d]
  }

  function Decimal(n: nat): (s: string)
    ensures s != "" && forall c :: c in s ==> IsDigit(c)
  {
    if n < 10 then [Digit(n)] else Decimal(n / 10) + [Digit(n % 10)]
  }

  /** Python's `%d`. */
  function FormatInt(n: int): (s: string)
    ensures s != "" && forall c :: c in s ==> c == '-' || IsDigit(c)
  {
    if n < 0 then "-" + Decimal(-n) else Decimal(n)
  }

  /** `set_cluster_id` */
  function ClusterId(framework: string, job: int, exe: int): (s: string) {
    PREFIX + "_" + framework + "_" + FormatInt(job) + "x" + FormatInt(exe)
  }

  // ---- Reading it back ----

  lemma {:induction false} SplitJoined(a: string, b: string)
    ensures Split(a + "_" + b) == Split(a) + Split(b)
    decreases |a|
  {
    if a == "" {
      assert a + "_" + b == "_" + b;
      assert ("_" + b)[1..] == b;
    } else {
      assert (a + "_" + b)[1..] == a[1..] + "_" + b;
      SplitJoined(a[1..], b);
    }
  }

  lemma {:induction false} JoinSplit(s: string)
    ensures Join(Split(s)) == s
    decreases |s|
  {
    if s != "" {
      JoinSplit(s[1..]);
      var rest := Split(s[1..]);
      if s[0] == '_' {
        assert ([""] + rest)[1..] == rest;
      } else {
        assert ([[s[0]] + rest[0]] + rest[1..])[1..] == rest[1..];
      }
    }
  }

  /** A string with no underscore is one segment, and only such a string is. */
  lemma {:induction false} OneSegment(s: string)
    ensures |Split(s)| == 1 <==> '_' !in s
    decreases |s|
  {
    if s != "" {
      assert s == [s[0]] + s[1..];
      OneSegment(s[1..]);
    }
  }

  function Tail(job: int, exe: int): (s: string) { FormatInt(job) + "x" + FormatInt(exe) }

  lemma PrefixSegments()
    ensures |Split(PREFIX)| == 2
  {
    assert PREFIX == "scale" + "_" + "job";
    SplitJoined("scale", "job");
    OneSegment("scale");
    OneSegment("job");
  }

  lemma Segments(framework: string, job: int, exe: int)
    ensures Split(ClusterId(framework, job, exe)) == Split(PREFIX) + Split(framework) + Split(Tail(job, exe))
    ensures |Split(ClusterId(framework, job, exe))| == 3 + |Split(framework)|
  {
    var head := PREFIX + "_" + framework;
    assert ClusterId(framework, job, exe) == head + "_" + Tail(job, exe);
    SplitJoined(head, Tail(job, exe));
    SplitJoined(PREFIX, framework);
    PrefixSegments();
    TailHasNoUnderscore(job, exe);
    OneSegment(Tail(job, exe));
  }

  lemma TailHasNoUnderscore(job: int, exe: int)
    ensures '_' !in Tail(job, exe)
  {
  }

  lemma JoinLength(parts: seq<string>, k: int)
    requires 0 < k < |parts|
    ensures |Join(parts[..k])| < |Join(parts)|
    decreases |parts|
  {
    if k > 1 {
      assert parts[..k][1..] == parts[1..][..k - 1];
      JoinLength(parts[1..], k - 1);
    }
  }

  /** Parsing a cluster id gives it back exactly when the framework id is a single segment. */
  lemma ParsesAlone(framework: string, job: int, exe: int)
    ensures ParseClusterId(ClusterId(framework, job, exe)) == ClusterId(framework, job, exe) <==> '_' !in framework
  {
    var id := ClusterId(framework, job, exe);
    Segments(framework, job, exe);
    OneSegment(framework);
    JoinSplit(id);
    if |Split(id)| > 4 { JoinLength(Split(id), 4); }
  }

  /** With two segments in the framework id, the job and the execution are cut off. */
  lemma UnderscoreCuts(a: string, b: string, job: int, exe: int)
    requires '_' !in a && '_' !in b
    ensures ParseClusterId(ClusterId(a + "_" + b, job, exe)) == PREFIX + "_" + (a + "_" + b)
  {
    var framework := a + "_" + b;
    var head := PREFIX + "_" + framework;
    Segments(framework, job, exe);
    SplitJoined(a, b);
    OneSegment(a);
    OneSegment(b);
    PrefixSegments();
    SplitJoined(PREFIX, framework);
    JoinSplit(head);
    var segments := Split(ClusterId(framework, job, exe));
    assert |Split(head)| == 4 && segments[..4] == Split(head);
  }

  /** Framework "a_b": two different executions are read back as one. */
  lemma UnderscoreBreaks()
    ensures ParseClusterId(ClusterId("a_b", 1, 2)) == ParseClusterId(ClusterId("a_b", 3, 4)) != ClusterId("a_b", 1, 2)
  {
    assert "a_b" == "a" + "_" + "b";
    UnderscoreCuts("a", "b", 1, 2);
    UnderscoreCuts("a", "b", 3, 4);
    ParsesAlone("a_b", 1, 2);
  }

  /** The same holds of a task id: a cluster id, an underscore and any suffix. */
  lemma ParsesFromTask(framework: string, job: int, exe: int, suffix: string)
    ensures ParseClusterId(ClusterId(framework, job, exe) + "_" + suffix) == ClusterId(framework, job, exe) <==>
            '_' !in framework
  {
    var id := ClusterId(framework, job, exe);
    Segments(framework, job, exe);
    OneSegment(framework);
    SplitJoined(id, suffix);
    JoinSplit(id);
    assert (Split(id) + Split(suffix))[..|Split(id)|] == Split(id);
    if |Split(id)| > 4 {
      assert (Split(id) + Split(suffix))[..4] == Split(id)[..4];
      JoinLength(Split(id), 4);
    }
  }

  // ---- What is printed ----

  /** The number that decimal digits stand for. */
  function ValueOf(s: string): (n: int) {
    if s == "" then 0 else 10 * ValueOf(s[..|s| - 1]) + (s[|s| - 1] as int - '0' as int)
  }

  lemma DigitValue(d: int)
    requires 0 <= d < 10
    ensures Digit(d) as int - '0' as int == d
  {
  }

  /** A number is printed by the digits that stand for it, without leading zeros. */
  lemma {:induction false} DecimalReads(n: nat)
    ensures ValueOf(Decimal(n)) == n
    ensures n > 0 ==> Decimal(n)[0] != '0'
  {
    if n < 10 {
      assert [Digit(n)][..0] == "";
      DigitValue(n);
    } else {
      var s := Decimal(n / 10);
      assert (s + [Digit(n % 10)])[..|s|] == s;
      DigitValue(n % 10);
      DecimalReads(n / 10);
    }
  }

  /** The prefix, the framework, the job and then the execution, with their separators; a minus sign before negative numbers. */
  lemma ClusterIdIs(framework: string, job: int, exe: int)
    ensures ClusterId(framework, job, exe) == "scale_job_" + framework + "_" + FormatInt(job) + "x" + FormatInt(exe)
    ensures job >= 0 ==> FormatInt(job) == Decimal(job) && ValueOf(FormatInt(job)) == job
    ensures job < 0 ==> FormatInt(job) == "-" + Decimal(-job) && ValueOf(FormatInt(job)[1..]) == -job
  {
    assert PREFIX + "_" == "scale_job_";
    assert PREFIX + "_" + framework == "scale_job_" + framework;
    if job >= 0 {
      DecimalReads(job);
    } else {
      DecimalReads(-job);
      assert ("-" + Decimal(-job))[1..] == Decimal(-job);
    }
  }

  // ---- Injectivity ----

  lemma {:induction false} DecimalInjective(m: nat, n: nat)
    requires Decimal(m) == Decimal(n)
    ensures m == n
    decreases m
  {
    assert |Decimal(m)| == |Decimal(n)|;
    if m >= 10 {
      LongDecimal(m);
      assert n >= 10;
      assert Decimal(m)[..|Decimal(m)| - 1] == Decimal(m / 10);
      assert Decimal(n)[..|Decimal(n)| - 1] == Decimal(n / 10);
      DecimalInjective(m / 10, n / 10);
      assert Decimal(m)[|Decimal(m)| - 1] == Digit(m % 10) && Decimal(n)[|Decimal(n)| - 1] == Digit(n % 10);
      DigitInjective(m % 10, n % 10);
    } else if n >= 10 {
      LongDecimal(n);
    } else {
      DigitInjective(m, n);
    }
  }

  lemma LongDecimal(n: nat)
    requires n >= 10
    ensures |Decimal(n)| >= 2
  {
  }

  lemma DigitInjective(a: int, b: int)
    requires 0 <= a < 10 && 0 <= b < 10 && Digit(a) == Digit(b)
    ensures a == b
  {
  }

  lemma FormatInjective(m: int, n: int)
    requires FormatInt(m) == FormatInt(n)
    ensures m == n
  {
    SignShows(m);
    SignShows(n);
    assert m < 0 <==> n < 0;
    if m < 0 {
      assert FormatInt(m)[1..] == Decimal(-m) && FormatInt(n)[1..] == Decimal(-n);
      DecimalInjective(-m, -n);
    } else {
      DecimalInjective(m, n);
    }
  }

  lemma SignShows(n: int)
    ensures FormatInt(n)[0] == '-' <==> n < 0
  {
    if n >= 0 { assert Decimal(n)[0] in Decimal(n); }
  }

  /** Two texts without the separator on each side of it are told apart. */
  lemma {:induction false} SeparatorSplits(a: string, b: string, c: string, d: string)
    requires 'x' !in a && 'x' !in c
    requires a + "x" + b == c + "x" + d
    ensures a == c && b == d
    decreases |a|
  {
    if a == "" || c == "" {
      assert (a + "x" + b)[0] == (c + "x" + d)[0];
      assert a == "" && c == "";
      assert (a + "x" + b)[1..] == b && (c + "x" + d)[1..] == d;
    } else {
      assert (a + "x" + b)[0] == a[0] && (c + "x" + d)[0] == c[0];
      assert (a + "x" + b)[1..] == a[1..] + "x" + b && (c + "x" + d)[1..] == c[1..] + "x" + d;
      SeparatorSplits(a[1..], b, c[1..], d);
    }
  }

  lemma TailOf(framework: string, job: int, exe: int)
    ensures var n := |PREFIX + "_" + framework + "_"|;
            |ClusterId(framework, job, exe)| >= n && ClusterId(framework, job, exe)[n..] == Tail(job, exe)
  {
    var head := PREFIX + "_" + framework + "_";
    assert ClusterId(framework, job, exe) == head + Tail(job, exe);
  }

  /** For one framework, a cluster id names one job and one execution. */
  lemma ClusterIdInjective(framework: string, job: int, exe: int, job': int, exe': int)
    requires ClusterId(framework, job, exe) == ClusterId(framework, job', exe')
    ensures job == job' && exe == exe'
  {
    TailOf(framework, job, exe);
    TailOf(framework, job', exe');
    SeparatorSplits(FormatInt(job), FormatInt(exe), FormatInt(job'), FormatInt(exe'));
    FormatInjective(job, job');
    FormatInjective(exe, exe');
  }
}
