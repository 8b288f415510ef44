/**
 * The symbolic integration behind the intHeatCapacity and intLinThermExp
 * getters: each property text is split at its colons, the part after the
 * first colon is integrated in T, and the antiderivatives are collected in
 * order until the first failure.
 */
module Integration {
  import opened Runtime
  import opened CellInput

  /** The text of s up to its first ':' (all of s if it has none). */
  function UpToColon(s: string): (r: string)
    ensures ':' !in r && r <= s
    ensures |r| < |s| ==> s[|r|] == ':'
  {
    if s == [] || s[0] == ':' then [] else [s[0]] + UpToColon(s[1..])
  }

  /** The text of s after its first ':'. */
  function AfterFirstColon(s: string): string
    requires ':' in s
  {
    if s[0] == ':' then s[1..] else AfterFirstColon(s[1..])
  }

  /**
   * Python's `s.split(':')[1]`: the text between the first and the second
   * colon (or the end). None is the IndexError of a text without a colon.
   */
  function Integrand(s: string): Option<string> {
    if ':' in s then Some(UpToColon(AfterFirstColon(s))) else None
  }

  /** The integrand of 'label:body' followed by nothing or by another colon is body. */
  lemma {:induction false} IntegrandIsBetweenColons(tag: string, body: string, rest: string)
    requires ':' !in tag && ':' !in body
    requires rest == [] || rest[0] == ':'
    ensures Integrand(tag + ":" + body + rest) == Some(body)
  {
    AfterColonOfLabel(tag, body + rest);
    assert tag + ":" + body + rest == tag + ":" + (body + rest);
    UpToColonOfBody(body, rest);
  }

  lemma {:induction false} AfterColonOfLabel(tag: string, tail: string)
    requires ':' !in tag
    ensures ':' in tag + ":" + tail && AfterFirstColon(tag + ":" + tail) == tail
  {
    var s := tag + ":" + tail;
    assert s[|tag|] == ':';
    if tag != [] {
      assert s[1..] == tag[1..] + ":" + tail;
      AfterColonOfLabel(tag[1..], tail);
    }
  }

  lemma {:induction false} UpToColonOfBody(body: string, rest: string)
    requires ':' !in body
    requires rest == [] || rest[0] == ':'
    ensures UpToColon(body + rest) == body
  {
    if body != [] {
      assert (body + rest)[1..] == body[1..] + rest;
      UpToColonOfBody(body[1..], rest);
    }
  }

  /**
   * One property text integrated: its antiderivative lambdified, with the
   * text 'lambda T : ' followed by the antiderivative. None when there is no
   * colon or sympy raises.
   */
  function IntegrateOne(ev: Evaluator, src: string): Option<Entry> {
    match Integrand(src)
    case None => None
    case Some(body) =>
      match ev.integrate(body)
      case None => None
      case Some(integral) => Some(Entry(ev.lambdify(integral), "lambda T : " + integral))
  }

  /** The texts integrated in order; the first failure ends the list, keeping what came before. */
  function Integrated(ev: Evaluator, srcs: seq<string>): (r: Handles)
    ensures |r.fns| == |r.strs| <= |srcs|
  {
    if srcs == [] then NoHandles
    else
      match IntegrateOne(ev, srcs[0])
      case None => NoHandles
      case Some(e) => Concat(Handles([e.fn], [e.src]), Integrated(ev, srcs[1..]))
  }

  /**
   * The integrated list is the prefix of the texts before the first failure:
   * entry k is text k integrated, and the list stops exactly where a text
   * fails to integrate.
   */
  lemma {:induction false} IntegratedIsPrefixBeforeFailure(ev: Evaluator, srcs: seq<string>)
    ensures var r := Integrated(ev, srcs);
      (forall k :: 0 <= k < |r.strs| ==>
         IntegrateOne(ev, srcs[k]) == Some(Entry(r.fns[k], r.strs[k]))) &&
      (|r.strs| < |srcs| ==> IntegrateOne(ev, srcs[|r.strs|]).None?) &&
      (|r.strs| == |srcs| <==> forall k :: 0 <= k < |srcs| ==> IntegrateOne(ev, srcs[k]).Some?)
  {
    if srcs != [] {
      IntegratedIsPrefixBeforeFailure(ev, srcs[1..]);
      var r := Integrated(ev, srcs);
      match IntegrateOne(ev, srcs[0])
      case None =>
      case Some(e) =>
        var rest := Integrated(ev, srcs[1..]);
        assert r.fns == [e.fn] + rest.fns && r.strs == [e.src] + rest.strs;
        forall k | 0 <= k < |r.strs|
          ensures IntegrateOne(ev, srcs[k]) == Some(Entry(r.fns[k], r.strs[k]))
        {
          if k > 0 {
            assert srcs[k] == srcs[1..][k - 1];
          }
        }
        if |r.strs| == |srcs| {
          forall k | 0 <= k < |srcs| ensures IntegrateOne(ev, srcs[k]).Some? {
            if k > 0 {
              assert srcs[k] == srcs[1..][k - 1];
            }
          }
        }
        if forall k :: 0 <= k < |srcs| ==> IntegrateOne(ev, srcs[k]).Some? {
          forall k | 0 <= k < |srcs[1..]| ensures IntegrateOne(ev, srcs[1..][k]).Some? {
            assert srcs[1..][k] == srcs[k + 1];
          }
        }
        if |r.strs| < |srcs| {
          assert srcs[|r.strs|] == srcs[1..][|rest.strs|];
        }
    }
  }

  /** Unfolds `Integrated` at position i of the texts. */
  lemma IntegratedUnfolds(ev: Evaluator, srcs: seq<string>, i: nat)
    requires i < |srcs|
    ensures Integrated(ev, srcs[i..]) ==
      match IntegrateOne(ev, srcs[i])
      case None => NoHandles
      case Some(e) => Concat(Handles([e.fn], [e.src]), Integrated(ev, srcs[i + 1..]))
  {
    assert srcs[i..][1..] == srcs[i + 1..];
  }

  lemma ConcatNothing(h: Handles)
    ensures Concat(h, NoHandles) == h
  {
    assert h.fns + [] == h.fns && h.strs + [] == h.strs;
  }

  lemma ConcatAfterAppend(h: Handles, e: Entry, g: Handles)
    ensures Concat(h, Concat(Handles([e.fn], [e.src]), g)) == Concat(Append(h, e), g)
  {
    assert h.fns + ([e.fn] + g.fns) == (h.fns + [e.fn]) + g.fns;
    assert h.strs + ([e.src] + g.strs) == (h.strs + [e.src]) + g.strs;
  }

  /** The integration loop of the getters, appending one antiderivative at a time. */
  method IntegrateAll(ev: Evaluator, srcs: seq<string>) returns (h: Handles)
    ensures h == Integrated(ev, srcs)
  {
    h := NoHandles;
    var i := 0;
    while i < |srcs|
      invariant 0 <= i <= |srcs|
      invariant Concat(h, Integrated(ev, srcs[i..])) == Integrated(ev, srcs)
    {
      IntegratedUnfolds(ev, srcs, i);
      var body := Integrand(srcs[i]);
      if body.None? {
        ConcatNothing(h);
        return;
      }
      var integral := ev.integrate(body.value);
      if integral.None? {
        ConcatNothing(h);
        return;
      }
      var e := Entry(ev.lambdify(integral.value), "lambda T : " + integral.value);
      ConcatAfterAppend(h, e, Integrated(ev, srcs[i + 1..]));
      h := Append(h, e);
      i := i + 1;
    }
    assert srcs[i..] == [];
    ConcatNothing(h);
  }
}
