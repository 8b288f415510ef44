/**
 * checkCellArrayInput: a property specification (a number, a lambda text, or
 * a list of those) becomes two parallel lists, the callables and the texts
 * they were evaluated from.
 */
module CellInput {
  import opened Runtime

  /** One callable together with the text it comes from. */
  datatype Entry = Entry(fn: Fn, src: string)

  /** Parallel lists of callables and their texts (the source's "HANDLES" and their Str lists). */
  datatype Handles = Handles(fns: seq<Fn>, strs: seq<string>)

  const NoHandles := Handles([], [])

  function Append(h: Handles, e: Entry): Handles {
    Handles(h.fns + [e.fn], h.strs + [e.src])
  }

  function Concat(h: Handles, g: Handles): Handles {
    Handles(h.fns + g.fns, h.strs + g.strs)
  }

  /** Every callable is what `eval` makes of the text beside it. */
  ghost predicate InSync(ev: Evaluator, h: Handles) {
    |h.fns| == |h.strs| &&
    forall k :: 0 <= k < |h.strs| ==> ev.eval(h.strs[k]) == Some(h.fns[k])
  }

  /** A specification that is not a list is a one-element list. */
  function CellArrayItems(inputs: PyValue): seq<PyValue> {
    if inputs.PyList? then inputs.items else [inputs]
  }

  /**
   * What one element contributes: an entry, nothing (a text whose `eval`
   * raises is reported and skipped), or an exception.
   */
  function ResolveItem(ev: Evaluator, x: PyValue): (r: Result<Option<Entry>>)
    ensures r.Ok? && r.value.Some? ==> ev.eval(r.value.value.src) == Some(r.value.value.fn)
    ensures x.PyFunction? ==> r == Err(FunctionValueGiven)
    ensures x.PyList? || x.PyOther? ==> r == Err(UnsupportedInput)
  {
    match x
    case PyFunction => Err(FunctionValueGiven)
    case PyStr(s) =>
      (match ev.eval(s)
       case Some(f) => Ok(Some(Entry(f, s)))
       case None => Ok(None))
    case PyBool(_) => ResolveNumber(ev, NumericValue(x))
    case PyInt(_) => ResolveNumber(ev, NumericValue(x))
    case PyFloat(_) => ResolveNumber(ev, NumericValue(x))
    case PyList(_) => Err(UnsupportedInput)
    case PyOther => Err(UnsupportedInput)
  }

  function ResolveNumber(ev: Evaluator, v: real): Result<Option<Entry>> {
    var text := ConstText(ev, v);
    match ev.eval(text)
    case Some(f) => Ok(Some(Entry(f, text)))
    case None => Err(LiteralEvalFailed)
  }

  /** The element is kept in the output lists. */
  ghost predicate Kept(ev: Evaluator, x: PyValue) {
    var r := ResolveItem(ev, x);
    r.Ok? && r.value.Some?
  }

  /** The element raises. */
  ghost predicate Raises(ev: Evaluator, x: PyValue) {
    ResolveItem(ev, x).Err?
  }

  /** The text an element is kept under: its own text, or the numeric lambda text. */
  function SourceText(ev: Evaluator, x: PyValue): string {
    if x.PyStr? then x.s
    else if IsNumeric(x) then ConstText(ev, NumericValue(x))
    else ""
  }

  /**
   * The result of traversing `items` in order: the first raising element
   * raises for the whole list; otherwise the kept elements, in input order.
   */
  function Resolve(ev: Evaluator, items: seq<PyValue>): (r: Result<Handles>)
    ensures r.Ok? ==> InSync(ev, r.value) && |r.value.strs| <= |items|
    decreases |items|
  {
    if items == [] then Ok(NoHandles)
    else
      var init := Resolve(ev, items[..|items| - 1]);
      if init.Err? then init
      else
        match ResolveItem(ev, items[|items| - 1])
        case Err(e) => Err(e)
        case Ok(None) => init
        case Ok(Some(entry)) => Ok(Append(init.value, entry))
  }

  /** The traversal of checkCellArrayInput. */
  method CheckCellArrayInput(ev: Evaluator, inputs: PyValue) returns (r: Result<Handles>)
    ensures r == Resolve(ev, CellArrayItems(inputs))
  {
    var items := if inputs.PyList? then inputs.items else [inputs];
    var output: seq<Fn> := [];
    var outputStrs: seq<string> := [];
    var i := 0;
    while i < |items|
      invariant 0 <= i <= |items|
      invariant Resolve(ev, items[..i]) == Ok(Handles(output, outputStrs))
    {
      assert items[..i + 1][..i] == items[..i];
      var x := items[i];
      match x {
        case PyFunction =>
          ResolveErrPersists(ev, items, i + 1);
          return Err(FunctionValueGiven);
        case PyStr(s) =>
          match ev.eval(s) {
            case Some(f) =>
              output := output + [f];
              outputStrs := outputStrs + [s];
            case None =>
          }
        case PyList(_) =>
          ResolveErrPersists(ev, items, i + 1);
          return Err(UnsupportedInput);
        case PyOther =>
          ResolveErrPersists(ev, items, i + 1);
          return Err(UnsupportedInput);
        case _ =>
          var text := ConstText(ev, NumericValue(x));
          match ev.eval(text) {
            case Some(f) =>
              output := output + [f];
              outputStrs := outputStrs + [text];
            case None =>
              ResolveErrPersists(ev, items, i + 1);
              return Err(LiteralEvalFailed);
          }
      }
      i := i + 1;
    }
    assert items[..i] == items;
    r := Ok(Handles(output, outputStrs));
  }

  /** Once a prefix raises, the whole list raises the same exception. */
  lemma {:induction false} ResolveErrPersists(ev: Evaluator, items: seq<PyValue>, n: nat)
    requires n <= |items|
    requires Resolve(ev, items[..n]).Err?
    ensures Resolve(ev, items) == Resolve(ev, items[..n])
    decreases |items| - n
  {
    if n == |items| {
      assert items[..n] == items;
    } else {
      var init := items[..|items| - 1];
      assert init[..n] == items[..n];
      ResolveErrPersists(ev, init, n);
    }
  }

  /**
   * The whole list raises exactly when some element raises, and then with the
   * exception of the first such element.
   */
  lemma {:induction false} ResolveRaisesAtFirstBadElement(ev: Evaluator, items: seq<PyValue>)
    ensures Resolve(ev, items).Err? <==> exists j :: 0 <= j < |items| && Raises(ev, items[j])
    ensures Resolve(ev, items).Err? ==>
      exists j :: 0 <= j < |items| && Raises(ev, items[j]) &&
        (forall i :: 0 <= i < j ==> !Raises(ev, items[i])) &&
        Resolve(ev, items).error == ResolveItem(ev, items[j]).error
    decreases |items|
  {
    if items != [] {
      var init := items[..|items| - 1];
      ResolveRaisesAtFirstBadElement(ev, init);
      assert forall i :: 0 <= i < |init| ==> init[i] == items[i];
      if Resolve(ev, init).Err? {
        var j :| 0 <= j < |init| && Raises(ev, init[j]) &&
          (forall i :: 0 <= i < j ==> !Raises(ev, init[i])) &&
          Resolve(ev, init).error == ResolveItem(ev, init[j]).error;
        assert Raises(ev, items[j]);
      } else if Raises(ev, items[|items| - 1]) {
        assert forall i :: 0 <= i < |items| - 1 ==> !Raises(ev, items[i]);
      }
    }
  }

  /**
   * Indices of the kept elements, in increasing order: the elements whose
   * text survives into the output lists.
   */
  ghost function KeptIndices(ev: Evaluator, items: seq<PyValue>): seq<int>
    decreases |items|
  {
    if items == [] then []
    else
      KeptIndices(ev, items[..|items| - 1]) +
        (if Kept(ev, items[|items| - 1]) then [|items| - 1] else [])
  }

  /**
   * Order is kept: entry k of a successful resolution comes from the k-th
   * kept element, with that element's own text; the kept elements are
   * exactly the numbers and the texts that evaluate.
   */
  lemma {:induction false} ResolveKeepsInputOrder(ev: Evaluator, items: seq<PyValue>)
    requires Resolve(ev, items).Ok?
    ensures var h := Resolve(ev, items).value; var idx := KeptIndices(ev, items);
      |idx| == |h.strs| &&
      (forall k :: 0 <= k < |idx| ==>
         0 <= idx[k] < |items| && h.strs[k] == SourceText(ev, items[idx[k]])) &&
      (forall k, l :: 0 <= k < l < |idx| ==> idx[k] < idx[l]) &&
      (forall j :: 0 <= j < |items| ==> (j in idx <==> Kept(ev, items[j])))
    decreases |items|
  {
    if items != [] {
      var init := items[..|items| - 1];
      var last := items[|items| - 1];
      ResolveKeepsInputOrder(ev, init);
      assert forall i :: 0 <= i < |init| ==> init[i] == items[i];
      var idx0 := KeptIndices(ev, init);
      assert forall k :: 0 <= k < |idx0| ==> idx0[k] < |items| - 1;
      if Kept(ev, last) {
        var e := ResolveItem(ev, last).value.value;
        assert e.src == SourceText(ev, last);
      }
    }
  }

  /** Nothing is dropped exactly when every element is kept. */
  lemma {:induction false} ResolveCompleteIffAllKept(ev: Evaluator, items: seq<PyValue>)
    requires Resolve(ev, items).Ok?
    ensures |Resolve(ev, items).value.strs| == |items| <==>
      forall j :: 0 <= j < |items| ==> Kept(ev, items[j])
    decreases |items|
  {
    if items != [] {
      var init := items[..|items| - 1];
      ResolveCompleteIffAllKept(ev, init);
      assert forall i :: 0 <= i < |init| ==> init[i] == items[i];
    }
  }

  /**
   * With an evaluator that reads the generated numeric texts, an element
   * raises exactly when it is a function value or not a number or a text,
   * and is dropped exactly when it is a text that does not evaluate.
   */
  lemma NumbersAndTextsAreAccepted(ev: Evaluator, x: PyValue)
    requires ReadsLiterals(ev)
    ensures Raises(ev, x) <==> !(IsNumeric(x) || x.PyStr?)
    ensures !Raises(ev, x) ==> (!Kept(ev, x) <==> x.PyStr? && ev.eval(x.s).None?)
  {
    if IsNumeric(x) {
      assert ev.eval(ConstText(ev, NumericValue(x))).Some?;
    }
  }

  /**
   * A single number v becomes one constant function, worth v rounded to six
   * decimals, kept under the text 'lambda T: ' followed by v so formatted.
   */
  lemma {:induction false} NumberBecomesConstantFunction(ev: Evaluator, x: PyValue, t: real)
    requires ReadsLiterals(ev) && IsNumeric(x)
    ensures var r := Resolve(ev, CellArrayItems(x));
      r.Ok? && r.value.strs == [ConstText(ev, NumericValue(x))] &&
      |r.value.fns| == 1 && r.value.fns[0](t) == ev.roundF(NumericValue(x))
  {
    var items := CellArrayItems(x);
    assert items[..0] == [];
    assert ev.eval(ConstText(ev, NumericValue(x))).Some?;
  }

  /** A single text that evaluates is kept verbatim; one that does not leaves both lists empty. */
  lemma {:induction false} TextIsKeptVerbatimOrDropped(ev: Evaluator, s: string)
    ensures var r := Resolve(ev, CellArrayItems(PyStr(s)));
      r.Ok? &&
      (ev.eval(s).Some? ==> r.value == Handles([ev.eval(s).value], [s])) &&
      (ev.eval(s).None? ==> r.value == NoHandles)
  {
    var items := CellArrayItems(PyStr(s));
    assert items[..0] == [];
  }
}
