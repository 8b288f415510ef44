/**
 * Atoms placed in a unit cell: the triple addAtom stores, the total atomic
 * mass, and the first-seen list of atom IDs.
 */
module Atoms {
  import opened Runtime

  /** The atom collaborator: only its ID, name and mass are read. */
  datatype Atom = Atom(id: string, name: string, mass: real)

  /**
   * A stored position: a callable of the strain, or the raw text when `eval`
   * of a position text raised (addAtom stores the text itself then).
   */
  datatype Position = Callable(fn: Fn) | Uncallable(text: string)

  /** The triple [atom, position, positionStr] of the atom list. */
  datatype AtomEntry = AtomEntry(atom: Atom, position: Position, positionStr: string)

  /** The stored position is what `eval` makes of the stored text, or that text itself. */
  ghost predicate PositionInSync(ev: Evaluator, e: AtomEntry) {
    match e.position
    case Callable(f) => ev.eval(e.positionStr) == Some(f)
    case Uncallable(text) => text == e.positionStr && ev.eval(text).None?
  }

  /**
   * The triple addAtom appends for a position specification, or the
   * exception it raises before appending anything.
   */
  function PlaceAtom(ev: Evaluator, atom: Atom, position: PyValue): (r: Result<AtomEntry>)
    ensures r.Ok? ==> r.value.atom == atom && PositionInSync(ev, r.value)
    ensures position.PyStr? ==> r.Ok? && r.value.positionStr == position.s
    ensures position.PyFunction? ==> r == Err(FunctionValueGiven)
    ensures position.PyList? || position.PyOther? ==> r == Err(UnsupportedPosition)
  {
    match position
    case PyFunction => Err(FunctionValueGiven)
    case PyStr(s) =>
      (match ev.eval(s)
       case Some(f) => Ok(AtomEntry(atom, Callable(f), s))
       case None => Ok(AtomEntry(atom, Uncallable(s), s)))
    case PyBool(_) => PlaceAtNumber(ev, atom, NumericValue(position))
    case PyInt(_) => PlaceAtNumber(ev, atom, NumericValue(position))
    case PyFloat(_) => PlaceAtNumber(ev, atom, NumericValue(position))
    case PyList(_) => Err(UnsupportedPosition)
    case PyOther => Err(UnsupportedPosition)
  }

  function PlaceAtNumber(ev: Evaluator, atom: Atom, p: real): Result<AtomEntry> {
    var text := PositionText(ev, p);
    match ev.eval(text)
    case Some(f) => Ok(AtomEntry(atom, Callable(f), text))
    case None => Err(LiteralEvalFailed)
  }

  /**
   * A numeric position p is stored as 'lambda strain: {:e}*(strain+1)' of p:
   * the position scales linearly with strain, p (rounded) at strain 0 and
   * twice that at strain 1.
   */
  lemma NumericPositionScalesWithStrain(ev: Evaluator, atom: Atom, position: PyValue, s: real)
    requires ReadsLiterals(ev) && IsNumeric(position)
    ensures var r := PlaceAtom(ev, atom, position); var p := NumericValue(position);
      r.Ok? && r.value.positionStr == PositionText(ev, p) && r.value.position.Callable? &&
      r.value.position.fn(s) == ev.roundE(p) * (s + 1.0) &&
      r.value.position.fn(0.0) == ev.roundE(p) &&
      r.value.position.fn(1.0) == 2.0 * ev.roundE(p)
  {
    var p := NumericValue(position);
    assert ev.eval(PositionText(ev, p)).Some?;
  }

  /** With an evaluator that reads numeric texts, addAtom raises exactly on a position that is neither a number nor a text. */
  lemma PlaceAtomRaisesIff(ev: Evaluator, atom: Atom, position: PyValue)
    requires ReadsLiterals(ev)
    ensures PlaceAtom(ev, atom, position).Err? <==> !(IsNumeric(position) || position.PyStr?)
  {
    if IsNumeric(position) {
      assert ev.eval(PositionText(ev, NumericValue(position))).Some?;
    }
  }

  /** The sum of the masses of the placed atoms. */
  function TotalMass(entries: seq<AtomEntry>): real
    decreases |entries|
  {
    if entries == [] then 0.0
    else TotalMass(entries[..|entries| - 1]) + entries[|entries| - 1].atom.mass
  }

  /** Appending an atom adds its mass to the sum. */
  lemma {:induction false} TotalMassAppend(entries: seq<AtomEntry>, e: AtomEntry)
    ensures TotalMass(entries + [e]) == TotalMass(entries) + e.atom.mass
  {
    assert (entries + [e])[..|entries|] == entries;
  }

  /** With atoms of positive mass the total is positive exactly when some atom is placed. */
  lemma {:induction false} TotalMassPositive(entries: seq<AtomEntry>)
    requires forall k :: 0 <= k < |entries| ==> entries[k].atom.mass > 0.0
    ensures entries == [] <==> TotalMass(entries) == 0.0
    ensures TotalMass(entries) >= 0.0
    decreases |entries|
  {
    if entries != [] {
      TotalMassPositive(entries[..|entries| - 1]);
    }
  }

  function AtomIds(entries: seq<AtomEntry>): (ids: seq<string>)
    ensures |ids| == |entries|
  {
    seq(|entries|, k requires 0 <= k < |entries| => entries[k].atom.id)
  }

  /** Each value of xs once, in the order of first occurrence. */
  function Dedup(xs: seq<string>): seq<string>
    decreases |xs|
  {
    if xs == [] then []
    else
      var d := Dedup(xs[..|xs| - 1]);
      if xs[|xs| - 1] in d then d else d + [xs[|xs| - 1]]
  }

  predicate NoDuplicates(xs: seq<string>) {
    forall i, j :: 0 <= i < j < |xs| ==> xs[i] != xs[j]
  }

  /** The position of the first occurrence of x in xs. */
  function FirstIndex(xs: seq<string>, x: string): (i: nat)
    requires x in xs
    ensures i < |xs| && xs[i] == x && x !in xs[..i]
  {
    if xs[0] == x then 0 else 1 + FirstIndex(xs[1..], x)
  }

  /** Dedup keeps every value and invents none, each once. */
  lemma {:induction false} DedupSameValuesOnce(xs: seq<string>)
    ensures NoDuplicates(Dedup(xs))
    ensures forall x :: x in Dedup(xs) <==> x in xs
    decreases |xs|
  {
    if xs != [] {
      var init := xs[..|xs| - 1];
      DedupSameValuesOnce(init);
      assert xs == init + [xs[|xs| - 1]];
    }
  }

  lemma {:induction false} FirstIndexExtends(xs: seq<string>, y: string, x: string)
    requires x in xs
    ensures x in xs + [y] && FirstIndex(xs + [y], x) == FirstIndex(xs, x)
  {
    if xs[0] != x {
      assert (xs + [y])[1..] == xs[1..] + [y];
      FirstIndexExtends(xs[1..], y, x);
    }
  }

  lemma {:induction false} FirstIndexOfNew(xs: seq<string>, y: string)
    requires y !in xs
    ensures FirstIndex(xs + [y], y) == |xs|
  {
    if xs != [] {
      assert (xs + [y])[1..] == xs[1..] + [y];
      FirstIndexOfNew(xs[1..], y);
    }
  }

  /** Dedup lists the values in the order in which they first occur. */
  lemma {:induction false} DedupFirstSeenOrder(xs: seq<string>)
    ensures forall x :: x in Dedup(xs) ==> x in xs
    ensures forall i, j :: 0 <= i < j < |Dedup(xs)| ==>
      FirstIndex(xs, Dedup(xs)[i]) < FirstIndex(xs, Dedup(xs)[j])
    decreases |xs|
  {
    if xs != [] {
      var init := xs[..|xs| - 1];
      var last := xs[|xs| - 1];
      assert xs == init + [last];
      DedupSameValuesOnce(init);
      DedupFirstSeenOrder(init);
      var d := Dedup(init);
      forall x | x in d ensures FirstIndex(xs, x) == FirstIndex(init, x) {
        FirstIndexExtends(init, last, x);
      }
      if last !in d {
        FirstIndexOfNew(init, last);
      }
    }
  }
}
