/**
  Successive invocations of the program against the same retro.json file:
  the document is the only state that one invocation passes to the next.
 */
module History {
  import opened Wrappers
  import opened Dto
  import opened RetroProgram

  /** The document after running the invocations in order. */
  function Run(doc: Option<RetroData>, invs: seq<Invocation>, render: Record -> string): Option<RetroData>
    decreases |invs|
  {
    if invs == [] then doc else Run(Step(doc, invs[0], render).document, invs[1..], render)
  }

  /** The number of add invocations that pass validation and name a variant. */
  function AcceptedAdds(invs: seq<Invocation>): nat {
    if invs == [] then 0
    else (if invs[0].Add? && Accepted(invs[0].options) then 1 else 0) + AcceptedAdds(invs[1..])
  }

  predicate NoClear(invs: seq<Invocation>) {
    forall i :: 0 <= i < |invs| ==> !invs[i].Clear?
  }

  /** Running a concatenation runs its two parts one after the other. */
  lemma {:induction false} RunConcat(doc: Option<RetroData>, a: seq<Invocation>, b: seq<Invocation>, render: Record -> string)
    ensures Run(doc, a + b, render) == Run(Run(doc, a, render), b, render)
    decreases |a|
  {
    if a != [] {
      assert (a + b)[0] == a[0];
      assert (a + b)[1..] == a[1..] + b;
      RunConcat(Step(doc, a[0], render).document, a[1..], b, render);
    } else {
      assert a + b == b;
    }
  }

  /** No sequence of invocations makes the document ill formed: lists hold
      only their own variant and every kudos names a target. */
  lemma {:induction false} RunKeepsWellFormed(doc: Option<RetroData>, invs: seq<Invocation>, render: Record -> string)
    requires WellFormed(Loaded(doc))
    ensures WellFormed(Loaded(Run(doc, invs, render)))
    decreases |invs|
  {
    if invs != [] {
      StepKeepsWellFormed(doc, invs[0], render);
      RunKeepsWellFormed(Step(doc, invs[0], render).document, invs[1..], render);
    }
  }

  /** Between two clears the store is an append-only log: every list of the
      loaded store is a prefix of the same list afterwards, and the store grows
      by one record per accepted add. */
  lemma {:induction false} RunWithoutClearOnlyAppends(doc: Option<RetroData>, invs: seq<Invocation>, render: Record -> string)
    requires NoClear(invs)
    ensures Extends(Loaded(doc), Loaded(Run(doc, invs, render)))
    ensures Size(Loaded(Run(doc, invs, render))) == Size(Loaded(doc)) + AcceptedAdds(invs)
    decreases |invs|
  {
    if invs != [] {
      var next := Step(doc, invs[0], render).document;
      if invs[0].Add? {
        AddSucceedsIffAccepted(doc, invs[0].options, invs[0].now);
        if Accepted(invs[0].options) {
          AcceptedAddAppendsOneRecord(doc, invs[0].options, invs[0].now);
        }
      }
      assert Extends(Loaded(doc), Loaded(next));
      assert NoClear(invs[1..]) by {
        forall i | 0 <= i < |invs[1..]| ensures !invs[1..][i].Clear? {
          assert invs[1..][i] == invs[i + 1];
        }
      }
      RunWithoutClearOnlyAppends(next, invs[1..], render);
      var last := Loaded(Run(next, invs[1..], render));
      forall s: Section ensures List(Loaded(doc), s) <= List(last, s) {
        assert List(Loaded(doc), s) <= List(Loaded(next), s) <= List(last, s);
      }
    }
  }

  /** Whatever came before, a clear leaves no document behind. */
  lemma RunEndingInClear(doc: Option<RetroData>, invs: seq<Invocation>, render: Record -> string)
    ensures Run(doc, invs + [Clear], render) == None
  {
    RunConcat(doc, invs, [Clear], render);
  }
}
