/** The names that the plan builder gives its candidates (tools/hk_v1_archive_cleanup.py:379-395). */
module ArchiveNames {
  import opened Text
  import opened ArchiveTree
  import opened ArchiveInventory
  import opened ArchiveCleanup
  import opened ArchiveRuns

  /** `f"{index:04d}-{path.name}"` */
  function BuiltName(index: nat, base: string): string {
    Padded(index, 4) + "-" + base
  }

  predicate AllDigits(s: string) {
    forall i | 0 <= i < |s| :: '0' <= s[i] <= '9'
  }

  lemma {:induction false} DecimalIsDigits(n: nat)
    ensures AllDigits(Decimal(n))
  {
    if n >= 10 {
      DecimalIsDigits(n / 10);
    }
  }

  /** The number that a text of digits writes. */
  function Value(s: string): nat
    requires AllDigits(s)
  {
    if s == "" then 0 else 10 * Value(s[..|s| - 1]) + (s[|s| - 1] as int - '0' as int)
  }

  lemma {:induction false} DecimalValue(n: nat)
    ensures AllDigits(Decimal(n)) && Value(Decimal(n)) == n
  {
    DecimalIsDigits(n);
    if n >= 10 {
      DecimalValue(n / 10);
      assert Decimal(n)[..|Decimal(n)| - 1] == Decimal(n / 10);
    } else {
      assert Decimal(n)[..0] == "";
    }
  }

  lemma {:induction false} ZerosAddNothing(zeros: nat, s: string)
    requires AllDigits(s)
    ensures AllDigits(seq(zeros, _ => '0') + s) && Value(seq(zeros, _ => '0') + s) == Value(s)
  {
    var padded := seq(zeros, _ => '0') + s;
    if s != "" {
      ZerosAddNothing(zeros, s[..|s| - 1]);
      assert padded[..|padded| - 1] == seq(zeros, _ => '0') + s[..|s| - 1];
    } else if zeros > 0 {
      ZerosAddNothing(zeros - 1, s);
      assert padded[..|padded| - 1] == seq(zeros - 1, _ => '0') + s;
    }
  }

  /** A padded number is digits that write it, at least one of them. */
  lemma PaddedValue(n: nat)
    ensures AllDigits(Padded(n, 4)) && Value(Padded(n, 4)) == n && Padded(n, 4) != ""
  {
    DecimalValue(n);
    var zeros := if 4 > |Decimal(n)| then 4 - |Decimal(n)| else 0;
    ZerosAddNothing(zeros, Decimal(n));
    assert Padded(n, 4) == seq(zeros, _ => '0') + Decimal(n);
  }

  /** Built names are as different as their indices, whatever the directories are called. */
  lemma BuiltNamesDiffer(i: nat, a: string, j: nat, b: string)
    requires BuiltName(i, a) == BuiltName(j, b)
    ensures i == j
  {
    PaddedValue(i);
    PaddedValue(j);
    var p, q := Padded(i, 4), Padded(j, 4);
    var left, right := BuiltName(i, a), BuiltName(j, b);
    assert left[|p|] == '-' && right[|q|] == '-';
    assert left == p + "-" + a && right == q + "-" + b;
    assert |p| == |q|;
    assert left[..|p|] == p && right[..|q|] == q;
  }

  lemma BuiltNameStarts(i: nat, a: string)
    ensures BuiltName(i, a) != "" && '0' <= BuiltName(i, a)[0] <= '9'
  {
    PaddedValue(i);
    assert BuiltName(i, a)[0] == Padded(i, 4)[0];
  }

  /** No plan that the builder makes has names that collide, with each other or with a temporary. */
  lemma BuiltPlansAreCollisionFree(plan: Plan, bases: seq<string>)
    requires |bases| == |plan.candidates|
    requires forall k | 0 <= k < |bases| :: plan.candidates[k].name == BuiltName(k + 1, bases[k])
    ensures CollisionFree(plan)
  {
    var cs := plan.candidates;
    forall i, j | 0 <= i < j < |cs| ensures cs[i].name != cs[j].name {
      if cs[i].name == cs[j].name {
        BuiltNamesDiffer(i + 1, bases[i], j + 1, bases[j]);
      }
    }
    forall i, j | 0 <= i < |cs| && 0 <= j < |cs| ensures cs[j].name != "." + cs[i].name + ".tmp" {
      BuiltNameStarts(j + 1, bases[j]);
    }
  }
}
