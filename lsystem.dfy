/** The L-system evaluator: an alphabet giving each symbol an action, a rule
    map rewriting symbols into strings, and an axiom. Evaluating to a depth
    rewrites every symbol in parallel that many times and then runs the
    symbols' actions from left to right. An action is modelled by the label
    it emits, so an evaluation is the trace of labels it emits. */
module LSystems {
  import opened Wrappers

  /** Symbols are looked up as one-character strings, the keys of the
      alphabet and rule dictionaries. */
  function Sym(c: char): string { [c] }

  datatype LSystem<A> = LSystem(alphabet: map<string, A>, rules: map<string, string>, axiom: string)

  /** Every symbol of `s` has an action. */
  predicate AllIn<A>(s: string, alphabet: map<string, A>)
  {
    forall i :: 0 <= i < |s| ==> Sym(s[i]) in alphabet
  }

  /** What the constructor's check demands: every symbol of the axiom, every
      rule key and every symbol of every rule body is in the alphabet. */
  predicate Covers<A>(alphabet: map<string, A>, rules: map<string, string>, axiom: string)
  {
    AllIn(axiom, alphabet) &&
    (forall k :: k in rules ==> k in alphabet) &&
    (forall k :: k in rules ==> AllIn(rules[k], alphabet))
  }

  /** The symbols that occur in an axiom, as rule keys, or in rule bodies. */
  ghost predicate Used(op: string, rules: map<string, string>, axiom: string)
  {
    (exists i :: 0 <= i < |axiom| && op == Sym(axiom[i])) ||
    op in rules ||
    (exists k, j :: k in rules && 0 <= j < |rules[k]| && op == Sym(rules[k][j]))
  }

  /** `LSystem.__init__`: store the three fields and, unless missing symbols
      are allowed, check the axiom's symbols, then the rule keys, then the
      rule bodies' symbols, failing at the first symbol with no action.
      Dictionary iteration order is not modelled: rules are visited in an
      arbitrary order. */
  method Create<A>(alphabet: map<string, A>, rules: map<string, string>, axiom: string, allowMissing: bool)
    returns (r: Result<LSystem<A>, string>)
    ensures r.Ok? <==> allowMissing || Covers(alphabet, rules, axiom)
    ensures r.Ok? ==> r.value == LSystem(alphabet, rules, axiom)
    ensures r.Err? ==> r.error !in alphabet && Used(r.error, rules, axiom)
    ensures r.Err? && !AllIn(axiom, alphabet) ==>
      exists i :: 0 <= i < |axiom| && r.error == Sym(axiom[i]) && AllIn(axiom[..i], alphabet)
  {
    if allowMissing {
      return Ok(LSystem(alphabet, rules, axiom));
    }
    var i := 0;
    while i < |axiom|
      invariant 0 <= i <= |axiom|
      invariant AllIn(axiom[..i], alphabet)
    {
      if Sym(axiom[i]) !in alphabet {
        return Err(Sym(axiom[i]));
      }
      assert axiom[..i + 1] == axiom[..i] + [axiom[i]];
      i := i + 1;
    }
    assert axiom[..i] == axiom;
    var keys := rules.Keys;
    while keys != {}
      invariant keys <= rules.Keys
      invariant forall k :: k in rules && k !in keys ==> k in alphabet
      decreases keys
    {
      var k :| k in keys;
      if k !in alphabet {
        return Err(k);
      }
      keys := keys - {k};
    }
    var pending := rules.Keys;
    while pending != {}
      invariant pending <= rules.Keys
      invariant forall k :: k in rules && k !in pending ==> AllIn(rules[k], alphabet)
      decreases pending
    {
      var k :| k in pending;
      var body := rules[k];
      var j := 0;
      while j < |body|
        invariant 0 <= j <= |body|
        invariant AllIn(body[..j], alphabet)
      {
        if Sym(body[j]) !in alphabet {
          return Err(Sym(body[j]));
        }
        assert body[..j + 1] == body[..j] + [body[j]];
        j := j + 1;
      }
      assert body[..j] == body;
      pending := pending - {k};
    }
    return Ok(LSystem(alphabet, rules, axiom));
  }

  /** `rules.get(op, op)`: a symbol's rule body, or the symbol itself. */
  function Rule<A>(sys: LSystem<A>, op: string): string
  {
    if op in sys.rules then sys.rules[op] else op
  }

  /** The labels the depth-0 loop emits: each symbol's action in order,
      nothing for a symbol without one. */
  function Actions<A>(sys: LSystem<A>, s: string): seq<A>
  {
    if s == [] then []
    else (if Sym(s[0]) in sys.alphabet then [sys.alphabet[Sym(s[0])]] else []) + Actions(sys, s[1..])
  }

  /** `evaluate(order, axiom)` for an explicit axiom: at depth 0 run the
      actions, otherwise evaluate every symbol's rule body one level down. */
  function Eval<A>(sys: LSystem<A>, order: nat, s: string): seq<A>
    decreases order, 1, 0
  {
    if order == 0 then Actions(sys, s) else EvalEach(sys, order, s)
  }

  /** The depth-`order` loop over the symbols of `s`. */
  function EvalEach<A>(sys: LSystem<A>, order: nat, s: string): seq<A>
    requires order > 0
    decreases order, 0, |s|
  {
    if s == [] then []
    else Eval(sys, order - 1, Rule(sys, Sym(s[0]))) + EvalEach(sys, order, s[1..])
  }

  /** `evaluate(order, axiom)`: an absent axiom falls back to the stored one.
      A negative order is not modelled. */
  function Evaluate<A>(sys: LSystem<A>, order: nat, axiom: Option<string>): seq<A>
  {
    Eval(sys, order, if axiom.Some? then axiom.value else sys.axiom)
  }

  /** One parallel rewriting step. */
  function Rewrite<A>(sys: LSystem<A>, s: string): string
  {
    if s == [] then [] else Rule(sys, Sym(s[0])) + Rewrite(sys, s[1..])
  }

  /** `n` parallel rewriting steps. */
  function RewriteN<A>(sys: LSystem<A>, n: nat, s: string): string
  {
    if n == 0 then s else RewriteN(sys, n - 1, Rewrite(sys, s))
  }

  // ---- Concatenation ----

  lemma {:induction false} ActionsConcat<A>(sys: LSystem<A>, a: string, b: string)
    ensures Actions(sys, a + b) == Actions(sys, a) + Actions(sys, b)
  {
    if a != [] {
      assert (a + b)[1..] == a[1..] + b;
      ActionsConcat(sys, a[1..], b);
    } else {
      assert a + b == b;
    }
  }

  lemma {:induction false} RewriteConcat<A>(sys: LSystem<A>, a: string, b: string)
    ensures Rewrite(sys, a + b) == Rewrite(sys, a) + Rewrite(sys, b)
  {
    if a != [] {
      assert (a + b)[1..] == a[1..] + b;
      RewriteConcat(sys, a[1..], b);
    } else {
      assert a + b == b;
    }
  }

  lemma {:induction false} RewriteNConcat<A>(sys: LSystem<A>, n: nat, a: string, b: string)
    ensures RewriteN(sys, n, a + b) == RewriteN(sys, n, a) + RewriteN(sys, n, b)
  {
    if n > 0 {
      RewriteConcat(sys, a, b);
      RewriteNConcat(sys, n - 1, Rewrite(sys, a), Rewrite(sys, b));
    }
  }

  /** The depth-`order` loop over `s` is the evaluation of its rewriting one
      level down. */
  lemma {:induction false} EvalEachRewrite<A>(sys: LSystem<A>, order: nat, s: string)
    requires order > 0
    ensures EvalEach(sys, order, s) == Actions(sys, RewriteN(sys, order - 1, Rewrite(sys, s)))
    decreases order, 0, |s|
  {
    if s == [] {
      RewriteNEmpty(sys, order - 1);
    } else {
      var body := Rule(sys, Sym(s[0]));
      EvalIsActionsOfRewrite(sys, order - 1, body);
      EvalEachRewrite(sys, order, s[1..]);
      RewriteNConcat(sys, order - 1, body, Rewrite(sys, s[1..]));
      ActionsConcat(sys, RewriteN(sys, order - 1, body), RewriteN(sys, order - 1, Rewrite(sys, s[1..])));
    }
  }

  /** Evaluating to a depth is running the actions of the string rewritten
      that many times. */
  lemma {:induction false} EvalIsActionsOfRewrite<A>(sys: LSystem<A>, order: nat, s: string)
    ensures Eval(sys, order, s) == Actions(sys, RewriteN(sys, order, s))
    decreases order, 1, 0
  {
    if order > 0 {
      EvalEachRewrite(sys, order, s);
    }
  }

  lemma {:induction false} RewriteNEmpty<A>(sys: LSystem<A>, n: nat)
    ensures RewriteN(sys, n, []) == []
  {
    if n > 0 {
      RewriteNEmpty(sys, n - 1);
    }
  }

  /** The trace of a concatenation is the concatenation of the traces. */
  lemma EvalConcat<A>(sys: LSystem<A>, order: nat, a: string, b: string)
    ensures Eval(sys, order, a + b) == Eval(sys, order, a) + Eval(sys, order, b)
  {
    EvalIsActionsOfRewrite(sys, order, a + b);
    EvalIsActionsOfRewrite(sys, order, a);
    EvalIsActionsOfRewrite(sys, order, b);
    RewriteNConcat(sys, order, a, b);
    ActionsConcat(sys, RewriteN(sys, order, a), RewriteN(sys, order, b));
  }

  // ---- The axiom argument ----

  /** An absent axiom evaluates the stored one; an empty axiom emits nothing
      at any depth. */
  lemma EvaluateAxiom<A>(sys: LSystem<A>, order: nat)
    ensures Evaluate(sys, order, None) == Eval(sys, order, sys.axiom)
    ensures Evaluate(sys, order, Some("")) == []
  {
    EvalIsActionsOfRewrite(sys, order, "");
    RewriteNEmpty(sys, order);
  }

  // ---- Actions and the alphabet check ----

  /** With every symbol in the alphabet, depth 0 emits one label per symbol:
      the symbol's action. */
  lemma {:induction false} ActionsAll<A>(sys: LSystem<A>, s: string)
    requires AllIn(s, sys.alphabet)
    ensures |Actions(sys, s)| == |s|
    ensures forall i :: 0 <= i < |s| ==> Actions(sys, s)[i] == sys.alphabet[Sym(s[i])]
  {
    if s != [] {
      assert AllIn(s[1..], sys.alphabet) by {
        forall i | 0 <= i < |s[1..]| ensures Sym(s[1..][i]) in sys.alphabet {
          assert s[1..][i] == s[i + 1];
        }
      }
      ActionsAll(sys, s[1..]);
      assert Sym(s[0]) in sys.alphabet;
    }
  }

  /** Symbols without an action are no-ops. */
  lemma {:induction false} ActionsNone<A>(sys: LSystem<A>, s: string)
    requires forall i :: 0 <= i < |s| ==> Sym(s[i]) !in sys.alphabet
    ensures Actions(sys, s) == []
  {
    if s != [] {
      assert forall i :: 0 <= i < |s[1..]| ==> s[1..][i] == s[i + 1];
      ActionsNone(sys, s[1..]);
    }
  }

  lemma {:induction false} AllInConcat<A>(a: string, b: string, alphabet: map<string, A>)
    requires AllIn(a, alphabet) && AllIn(b, alphabet)
    ensures AllIn(a + b, alphabet)
  {
    forall i | 0 <= i < |a + b| ensures Sym((a + b)[i]) in alphabet {
      if i >= |a| {
        assert (a + b)[i] == b[i - |a|];
      }
    }
  }

  /** A checked system rewrites symbols with actions into symbols with
      actions. */
  lemma {:induction false} RewriteStaysIn<A>(sys: LSystem<A>, s: string)
    requires Covers(sys.alphabet, sys.rules, sys.axiom) && AllIn(s, sys.alphabet)
    ensures AllIn(Rewrite(sys, s), sys.alphabet)
  {
    if s != [] {
      assert Sym(s[0]) in sys.alphabet;
      assert AllIn(s[1..], sys.alphabet) by {
        forall i | 0 <= i < |s[1..]| ensures Sym(s[1..][i]) in sys.alphabet {
          assert s[1..][i] == s[i + 1];
        }
      }
      RewriteStaysIn(sys, s[1..]);
      var body := Rule(sys, Sym(s[0]));
      assert AllIn(body, sys.alphabet) by {
        if Sym(s[0]) !in sys.rules {
          assert body == [s[0]];
        }
      }
      AllInConcat(body, Rewrite(sys, s[1..]), sys.alphabet);
    }
  }

  lemma {:induction false} RewriteNStaysIn<A>(sys: LSystem<A>, n: nat, s: string)
    requires Covers(sys.alphabet, sys.rules, sys.axiom) && AllIn(s, sys.alphabet)
    ensures AllIn(RewriteN(sys, n, s), sys.alphabet)
  {
    if n > 0 {
      RewriteStaysIn(sys, s);
      RewriteNStaysIn(sys, n - 1, Rewrite(sys, s));
    }
  }

  /** For a system that passes the alphabet check, evaluating the stored
      axiom to any depth runs an action for every symbol of the rewritten
      axiom: one label per symbol, none skipped. */
  lemma TraceLength<A>(sys: LSystem<A>, order: nat)
    requires Covers(sys.alphabet, sys.rules, sys.axiom)
    ensures |Evaluate(sys, order, None)| == |RewriteN(sys, order, sys.axiom)|
  {
    EvalIsActionsOfRewrite(sys, order, sys.axiom);
    RewriteNStaysIn(sys, order, sys.axiom);
    ActionsAll(sys, RewriteN(sys, order, sys.axiom));
  }

  // ---- The predefined systems ----

  /** The turtle operations the predefined alphabets call. */
  datatype Turtle = Forward(distance: real) | Jog(distance: real) | Right(degrees: real) | Left(degrees: real)
                  | PushState | PopState | PenDown | PenUp | DoNothing

  /** The default segment length. */
  const SIZE: real := 10.0

  /** `LSystem.standard_alphabet`: draw, move without drawing, turn, save and
      restore the turtle state, and lower or raise the pen. */
  function StandardAlphabet(size: real, angle: real): map<string, Turtle>
  {
    map["F" := Forward(size), "f" := Jog(size), "-" := Right(angle), "+" := Left(angle),
        "[" := PushState, "]" := PopState, "(" := PenDown, ")" := PenUp]
  }

  /** The eight standard symbols name eight different turtle operations. */
  lemma StandardAlphabetDistinct(size: real, angle: real, a: string, b: string)
    requires a in StandardAlphabet(size, angle) && b in StandardAlphabet(size, angle)
    requires StandardAlphabet(size, angle)[a] == StandardAlphabet(size, angle)[b]
    ensures a == b
  {
  }

  /** Over the standard alphabet the depth-0 trace determines the string:
      two strings made of standard symbols that drive the turtle the same way
      are the same string. */
  lemma {:induction false} StandardTraceDetermines(sys: LSystem<Turtle>, size: real, angle: real, s: string, t: string)
    requires sys.alphabet == StandardAlphabet(size, angle)
    requires AllIn(s, sys.alphabet) && AllIn(t, sys.alphabet)
    requires Actions(sys, s) == Actions(sys, t)
    ensures s == t
  {
    ActionsAll(sys, s);
    ActionsAll(sys, t);
    if s != [] {
      assert Sym(s[0]) in sys.alphabet && Sym(t[0]) in sys.alphabet;
      assert t != [];
      assert Actions(sys, s) == [sys.alphabet[Sym(s[0])]] + Actions(sys, s[1..]);
      assert Actions(sys, t) == [sys.alphabet[Sym(t[0])]] + Actions(sys, t[1..]);
      assert Actions(sys, s[1..]) == Actions(sys, s)[1..] == Actions(sys, t)[1..] == Actions(sys, t[1..]);
      StandardAlphabetDistinct(size, angle, Sym(s[0]), Sym(t[0]));
      assert s[0] == Sym(s[0])[0] == Sym(t[0])[0] == t[0];
      assert AllIn(s[1..], sys.alphabet) && AllIn(t[1..], sys.alphabet);
      StandardTraceDetermines(sys, size, angle, s[1..], t[1..]);
      assert s == [s[0]] + s[1..];
      assert t == [t[0]] + t[1..];
    }
  }

  /** A drawing alphabet: two forward-drawing symbols and a turn pair. */
  function Drawing(a: string, b: string, size: real, angle: real): map<string, Turtle>
  {
    map[a := Forward(size), b := Forward(size), "-" := Right(angle), "+" := Left(angle)]
  }

  function Seripinski(size: real): LSystem<Turtle>
  {
    LSystem(Drawing("F", "G", size, 120.0), map["F" := "F-G+F+G-F", "G" := "GG"], "F-G-G")
  }

  function SeripinskiArrowHead(size: real): LSystem<Turtle>
  {
    LSystem(Drawing("A", "B", size, 60.0), map["A" := "B-A-B", "B" := "A+B+A"], "A")
  }

  function Gosper(size: real): LSystem<Turtle>
  {
    LSystem(Drawing("A", "B", size, 60.0), map["A" := "A-B--B+A++AA+B-", "B" := "+A-BB--B-A++A+B"], "A")
  }

  function Dragon(size: real): LSystem<Turtle>
  {
    LSystem(Drawing("F", "G", size, 90.0), map["F" := "F+G", "G" := "F-G"], "F")
  }

  function Fern(): LSystem<Turtle>
  {
    LSystem(
      map["X" := DoNothing, "F" := Forward(SIZE), "-" := Right(25.0), "+" := Left(25.0),
          "[" := PushState, "]" := PopState],
      map["X" := "F+[[X]-X]-F[-FX]+X", "F" := "FF"],
      "++X")
  }

  /** Each predefined system passes the alphabet check. */
  lemma SeripinskiCovered(size: real)
    ensures var s := Seripinski(size); Covers(s.alphabet, s.rules, s.axiom)
  {
  }

  lemma SeripinskiArrowHeadCovered(size: real)
    ensures var s := SeripinskiArrowHead(size); Covers(s.alphabet, s.rules, s.axiom)
  {
  }

  lemma GosperCovered(size: real)
    ensures var s := Gosper(size); Covers(s.alphabet, s.rules, s.axiom)
  {
  }

  lemma DragonCovered(size: real)
    ensures var s := Dragon(size); Covers(s.alphabet, s.rules, s.axiom)
  {
  }

  lemma FernCovered()
    ensures var s := Fern(); Covers(s.alphabet, s.rules, s.axiom)
  {
  }
}
