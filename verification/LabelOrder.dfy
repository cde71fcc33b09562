/** Two engines, two ways to unwind a branch: the interpreter pops all labels at
    once, the worker pops them one after the other. When do they agree? */
module LabelOrder {
  import opened Wasm
  import opened Machine

  /** The worker's loop: `n` successive pops of a single label. */
  function PopEach(cfg: Config, n: nat): Outcome
    decreases n
  {
    if n == 0 then Next(cfg)
    else
      match PopLabels(cfg, 1)
      case Next(c) => PopEach(c, n - 1)
      case r => r
  }

  predicate Distinct(vals: seq<Value>) {
    forall j, k :: 0 <= j < k < |vals| ==> vals[j] != vals[k]
  }

  /** The top `n` labels were pushed on a growing stack. */
  predicate Rising(labels: seq<Label>, n: nat) {
    n <= |labels| && forall j :: |labels| - n < j < |labels| ==> labels[j - 1].height <= labels[j].height
  }

  /** Every label on the way keeps at least what the target keeps, and after it has
      been popped the next one still finds what it keeps. */
  predicate Unwinds(cfg: Config, n: nat)
    requires 0 < n <= |cfg.labels|
  {
    var ls, t := cfg.labels, cfg.labels[|cfg.labels| - n];
    && Last(ls).height + Last(ls).coarity <= |cfg.vals|
    && (forall j :: |ls| - n < j < |ls| ==>
          ls[j - 1].height + ls[j - 1].coarity <= ls[j].height + ls[j].coarity)
    && forall j :: |ls| - n <= j < |ls| ==> t.coarity <= ls[j].coarity
  }

  function Popped(cfg: Config): Config
    requires cfg.labels != [] && Last(cfg.labels).height + Last(cfg.labels).coarity <= |cfg.vals|
  {
    cfg.(vals := Erased(cfg.vals, Last(cfg.labels).height, Last(cfg.labels).coarity), labels := Front(cfg.labels))
  }

  /** After popping a wide enough label, the remaining labels lead to the same result. */
  lemma PoppedSame(cfg: Config, n: nat)
    requires 1 < n && Rising(cfg.labels, n)
    requires Last(cfg.labels).height + Last(cfg.labels).coarity <= |cfg.vals|
    requires cfg.labels[|cfg.labels| - n].coarity <= Last(cfg.labels).coarity
    ensures PopLabels(cfg, 1) == Next(Popped(cfg))
    ensures PopLabels(Popped(cfg), n - 1) == PopLabels(cfg, n)
    ensures PopLabels(cfg, n).Next? && Rising(Popped(cfg).labels, n - 1)
  {
    var t, l := cfg.labels[|cfg.labels| - n], Last(cfg.labels);
    var c := Popped(cfg);
    RisingEnds(cfg.labels, n);
    assert c.labels[|c.labels| - (n - 1)] == t;
    assert cfg.labels[..|cfg.labels| - n] == c.labels[..|c.labels| - (n - 1)];
    assert c.vals[..t.height] == cfg.vals[..t.height];
    assert c.vals[|c.vals| - t.coarity..] == cfg.vals[|cfg.vals| - t.coarity..];
  }

  lemma {:induction false} RisingEnds(labels: seq<Label>, n: nat)
    requires Rising(labels, n) && n > 0
    ensures labels[|labels| - n].height <= Last(labels).height
    decreases n
  {
    if n > 1 {
      RisingEnds(labels, n - 1);
    }
  }

  lemma UnwindsTail(cfg: Config, n: nat)
    requires 1 < n <= |cfg.labels| && Unwinds(cfg, n)
    ensures cfg.labels[|cfg.labels| - n].coarity <= Last(cfg.labels).coarity && Unwinds(Popped(cfg), n - 1)
  {
    var ls, ms := cfg.labels, Popped(cfg).labels;
    var k := |ls| - 1;
    assert |Popped(cfg).vals| == Last(ls).height + Last(ls).coarity;
    assert ls[k - 1].height + ls[k - 1].coarity <= ls[k].height + ls[k].coarity;
    assert ms == ls[..k];
  }

  lemma UnwindsHead(cfg: Config, n: nat)
    requires 1 < n <= |cfg.labels| && Last(cfg.labels).height + Last(cfg.labels).coarity <= |cfg.vals|
    requires cfg.labels[|cfg.labels| - n].coarity <= Last(cfg.labels).coarity && Unwinds(Popped(cfg), n - 1)
    ensures Unwinds(cfg, n)
  {
    var ls, c := cfg.labels, Popped(cfg);
    var ms := c.labels;
    assert ms == ls[..|ls| - 1] && |c.vals| == Last(ls).height + Last(ls).coarity;
    assert ls[|ls| - n] == ms[|ms| - (n - 1)] && Last(ms) == ls[|ls| - 2];
    forall j | |ls| - n < j < |ls|
      ensures ls[j - 1].height + ls[j - 1].coarity <= ls[j].height + ls[j].coarity
    {
      if j < |ls| - 1 {
        assert ms[j - 1].height + ms[j - 1].coarity <= ms[j].height + ms[j].coarity;
      }
    }
    forall j | |ls| - n <= j < |ls| ensures ls[|ls| - n].coarity <= ls[j].coarity {
      if j < |ls| - 1 {
        assert ms[|ms| - (n - 1)].coarity <= ms[j].coarity;
      }
    }
  }

  /** One-shot and repeated popping agree on an unwinding label stack, and both
      leave the target's prefix and the top values that the target keeps. */
  lemma {:induction false} UnwindsSuffices(cfg: Config, n: nat)
    requires 0 < n <= |cfg.labels| && Rising(cfg.labels, n) && Unwinds(cfg, n)
    ensures PopLabels(cfg, n).Next? && PopEach(cfg, n) == PopLabels(cfg, n)
    decreases n
  {
    assert Last(cfg.labels).height + Last(cfg.labels).coarity <= |cfg.vals|;
    if n > 1 {
      hide Unwinds, PopLabels, Popped, Rising;
      UnwindsTail(cfg, n);
      PoppedSame(cfg, n);
      UnwindsSuffices(Popped(cfg), n - 1);
    } else {
      assert PopEach(PopLabels(cfg, 1).cfg, 0) == PopLabels(cfg, 1);
    }
  }

  /** Popping never brings a value back. */
  lemma {:induction false} PopEachKeepsOut(cfg: Config, n: nat, x: Value)
    requires x !in cfg.vals && PopEach(cfg, n).Next?
    ensures x !in PopEach(cfg, n).cfg.vals
    decreases n
  {
    if n > 0 {
      PopEachKeepsOut(PopLabels(cfg, 1).cfg, n - 1, x);
    }
  }

  lemma PoppedLoses(cfg: Config, keep: nat)
    requires cfg.labels != [] && Last(cfg.labels).height + keep <= |cfg.vals|
    requires Last(cfg.labels).coarity < keep && Distinct(cfg.vals)
    ensures cfg.vals[|cfg.vals| - Last(cfg.labels).coarity - 1] !in Popped(cfg).vals
  {
  }

  lemma DistinctPopped(cfg: Config)
    requires cfg.labels != [] && Last(cfg.labels).height + Last(cfg.labels).coarity <= |cfg.vals| && Distinct(cfg.vals)
    ensures Distinct(Popped(cfg).vals)
  {
  }

  /** A label that keeps less than the target loses a branch operand for good. */
  lemma NarrowLoses(cfg: Config, n: nat)
    requires 1 < n <= |cfg.labels| && Distinct(cfg.vals)
    requires Last(cfg.labels).height + cfg.labels[|cfg.labels| - n].coarity <= |cfg.vals|
    requires Last(cfg.labels).coarity < cfg.labels[|cfg.labels| - n].coarity
    requires PopLabels(cfg, n).Next?
    ensures PopEach(cfg, n) != PopLabels(cfg, n)
  {
    var t, l := cfg.labels[|cfg.labels| - n], Last(cfg.labels);
    var x := cfg.vals[|cfg.vals| - l.coarity - 1];
    var r := PopLabels(cfg, n).cfg.vals;
    assert r[|r| - l.coarity - 1] == x;
    if PopEach(cfg, n).Next? {
      assert PopLabels(cfg, 1) == Next(Popped(cfg));
      PoppedLoses(cfg, t.coarity);
      PopEachKeepsOut(Popped(cfg), n - 1, x);
    }
  }

  /** The converse, on a stack whose values can be told apart and whose branch
      operands lie in the innermost block. */
  lemma {:induction false} UnwindsNeeded(cfg: Config, n: nat)
    requires 0 < n <= |cfg.labels| && Rising(cfg.labels, n) && Distinct(cfg.vals)
    requires Last(cfg.labels).height + cfg.labels[|cfg.labels| - n].coarity <= |cfg.vals|
    requires PopLabels(cfg, n).Next? && PopEach(cfg, n) == PopLabels(cfg, n)
    ensures Unwinds(cfg, n)
    decreases n
  {
    var t, l := cfg.labels[|cfg.labels| - n], Last(cfg.labels);
    if n > 1 {
      if l.coarity < t.coarity {
        NarrowLoses(cfg, n);
      } else {
        assert l.height + l.coarity <= |cfg.vals|;
        UnwindsNeededStep(cfg, n);
        UnwindsNeeded(Popped(cfg), n - 1);
        UnwindsHead(cfg, n);
      }
    }
  }

  lemma UnwindsNeededStep(cfg: Config, n: nat)
    requires 1 < n <= |cfg.labels| && Rising(cfg.labels, n) && Distinct(cfg.vals)
    requires cfg.labels[|cfg.labels| - n].coarity <= Last(cfg.labels).coarity
    requires Last(cfg.labels).height + Last(cfg.labels).coarity <= |cfg.vals|
    requires PopEach(cfg, n) == PopLabels(cfg, n)
    ensures var c := Popped(cfg);
            && n - 1 <= |c.labels| && Rising(c.labels, n - 1) && Distinct(c.vals)
            && Last(c.labels).height + c.labels[|c.labels| - (n - 1)].coarity <= |c.vals|
            && PopLabels(c, n - 1).Next? && PopEach(c, n - 1) == PopLabels(c, n - 1)
  {
    PoppedSame(cfg, n);
    DistinctPopped(cfg);
    var ls, c := cfg.labels, Popped(cfg);
    assert Last(c.labels) == ls[|ls| - 2] && c.labels[|c.labels| - (n - 1)] == ls[|ls| - n];
    assert ls[|ls| - 2].height <= ls[|ls| - 1].height;
    assert |c.vals| == Last(ls).height + Last(ls).coarity;
  }

  /** Exactly when the two engines agree on a branch. */
  lemma EnginesAgreeIff(cfg: Config, n: nat)
    requires 0 < n <= |cfg.labels| && Rising(cfg.labels, n) && Distinct(cfg.vals)
    requires Last(cfg.labels).height + cfg.labels[|cfg.labels| - n].coarity <= |cfg.vals|
    requires PopLabels(cfg, n).Next?
    ensures PopEach(cfg, n) == PopLabels(cfg, n) <==> Unwinds(cfg, n)
  {
    if PopEach(cfg, n) == PopLabels(cfg, n) {
      UnwindsNeeded(cfg, n);
    }
    if Unwinds(cfg, n) {
      UnwindsSuffices(cfg, n);
    }
  }

  function With(cfg: Config, vals: seq<Value>): Config {
    cfg.(vals := vals)
  }

  function Numbered(h: nat): (vals: seq<Value>)
    requires h <= 0x1_0000_0000_0000_0000
    ensures |vals| == h && Distinct(vals)
  {
    seq(h, k requires 0 <= k < h => I64Val(k))
  }

  /** On every content of the value stack the engines agree exactly when the labels
      unwind: a condition on the heights and coarities alone. */
  lemma EnginesAgreeAlwaysIff(cfg: Config, n: nat)
    requires 0 < n <= |cfg.labels| && Rising(cfg.labels, n) && |cfg.vals| <= 0x1_0000_0000_0000_0000
    requires Last(cfg.labels).height + cfg.labels[|cfg.labels| - n].coarity <= |cfg.vals|
    ensures (forall vals: seq<Value> :: |vals| == |cfg.vals| ==>
          PopEach(With(cfg, vals), n) == PopLabels(With(cfg, vals), n))
       <==> Unwinds(cfg, n)
  {
    hide PopEach, Distinct;
    RisingEnds(cfg.labels, n);
    if Unwinds(cfg, n) {
      forall vals: seq<Value> | |vals| == |cfg.vals|
        ensures PopEach(With(cfg, vals), n) == PopLabels(With(cfg, vals), n)
      {
        UnwindsSuffices(With(cfg, vals), n);
      }
    } else {
      var c := With(cfg, Numbered(|cfg.vals|));
      EnginesAgreeIff(c, n);
      assert PopEach(c, n) != PopLabels(c, n);
    }
  }
}
