/** Composing runs. */
module Runs {
  import opened Lifecycle
  import opened Protocol

  lemma {:induction false} RunConcat(spec: Spec, a: World, ls: seq<Label>, b: World, ls': seq<Label>, c: World)
    requires Run(spec, a, ls, b) && Run(spec, b, ls', c)
    ensures Run(spec, a, ls + ls', c)
    decreases |ls|
  {
    if ls == [] {
      assert ls + ls' == ls';
    } else {
      RunConcat(spec, Exec(spec, a, ls[0]), ls[1..], b, ls', c);
      assert (ls + ls')[1..] == ls[1..] + ls';
    }
  }

  lemma {:induction false} RunOne(spec: Spec, w: World, l: Label)
    requires Enabled(spec, w, l)
    ensures Run(spec, w, [l], Exec(spec, w, l))
  {
    assert [l][1..] == [];
    assert Run(spec, Exec(spec, w, l), [], Exec(spec, w, l));
  }

  lemma {:induction false} RunSnoc(spec: Spec, a: World, ls: seq<Label>, b: World, l: Label)
    requires Run(spec, a, ls, b) && Enabled(spec, b, l)
    ensures Run(spec, a, ls + [l], Exec(spec, b, l))
  {
    RunOne(spec, b, l);
    RunConcat(spec, a, ls, b, [l], Exec(spec, b, l));
  }
}
