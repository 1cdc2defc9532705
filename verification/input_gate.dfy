/**
 The input gate of the cross-section page: the four coordinate text fields are
 parsed one by one, each failure is reported for its own field, and the pipeline
 continues only when all four values have the same integer-part digit count.
 */
module InputGate {
  import opened Wrappers
  import Digits

  /** The four coordinate text fields, in the order the page validates them. */
  datatype Field = StartEasting | StartNorthing | EndEasting | EndNorthing

  /** Position of a field in validation order. */
  function Rank(f: Field): nat {
    match f
    case StartEasting => 0
    case StartNorthing => 1
    case EndEasting => 2
    case EndNorthing => 3
  }

  /** The raw text typed into the four fields. */
  datatype Inputs = Inputs(startX: string, startY: string, endX: string, endY: string)

  function Raw(inp: Inputs, f: Field): string {
    match f
    case StartEasting => inp.startX
    case StartNorthing => inp.startY
    case EndEasting => inp.endX
    case EndNorthing => inp.endY
  }

  /** The four parsed coordinates. */
  datatype Coords = Coords(startX: real, startY: real, endX: real, endY: real)

  function Value(c: Coords, f: Field): real {
    match f
    case StartEasting => c.startX
    case StartNorthing => c.startY
    case EndEasting => c.endX
    case EndNorthing => c.endY
  }

  /** Python's `all([start_x, start_y, end_x, end_y])` over strings: every field is non-empty. */
  predicate AllProvided(inp: Inputs)
    ensures AllProvided(inp) <==> forall f :: Raw(inp, f) != ""
  {
    assert forall f :: Raw(inp, f) in {inp.startX, inp.startY, inp.endX, inp.endY} by {
      forall f ensures Raw(inp, f) in {inp.startX, inp.startY, inp.endX, inp.endY} {
        assert f.StartEasting? || f.StartNorthing? || f.EndEasting? || f.EndNorthing?;
      }
    }
    Raw(inp, StartEasting) != "" && Raw(inp, StartNorthing) != ""
      && Raw(inp, EndEasting) != "" && Raw(inp, EndNorthing) != ""
  }

  /** The report for one field: `is_valid_coordinate` yields the number, or names the
      field when `float()` rejects the text. */
  function Complaint(parsed: Option<real>, f: Field): seq<Field> {
    if parsed.None? then [f] else []
  }

  /** Runs `is_valid_coordinate` on all four fields (none is skipped when an earlier one
      fails). `parse` is Python's `float()` on a string: `None` where it raises `ValueError`. */
  function ParseCoordinates(parse: string -> Option<real>, inp: Inputs): (r: Result<Coords, seq<Field>>)
    ensures r.Success? <==> forall f :: parse(Raw(inp, f)).Some?
    ensures r.Success? ==> forall f :: parse(Raw(inp, f)) == Some(Value(r.value, f))
    ensures r.Failure? ==> forall f :: f in r.error <==> parse(Raw(inp, f)).None?
    ensures r.Failure? ==> forall i, j :: 0 <= i < j < |r.error| ==> Rank(r.error[i]) < Rank(r.error[j])
  {
    var sx := parse(Raw(inp, StartEasting));
    var sy := parse(Raw(inp, StartNorthing));
    var ex := parse(Raw(inp, EndEasting));
    var ey := parse(Raw(inp, EndNorthing));
    assert forall f :: parse(Raw(inp, f)) in {sx, sy, ex, ey} by {
      forall f ensures parse(Raw(inp, f)) in {sx, sy, ex, ey} {
        assert f.StartEasting? || f.StartNorthing? || f.EndEasting? || f.EndNorthing?;
      }
    }
    if sx.Some? && sy.Some? && ex.Some? && ey.Some? then
      Success(Coords(sx.value, sy.value, ex.value, ey.value))
    else
      Failure(Complaint(sx, StartEasting) + Complaint(sy, StartNorthing)
              + Complaint(ex, EndEasting) + Complaint(ey, EndNorthing))
  }

  /** The chained comparison `x_digits == y_digits == end_x_digits == end_y_digits`. */
  predicate DigitsAgree(c: Coords)
    ensures DigitsAgree(c) <==>
      forall f, g :: Digits.IntegerDigits(Value(c, f)) == Digits.IntegerDigits(Value(c, g))
  {
    var dx := Digits.IntegerDigits(Value(c, StartEasting));
    var dy := Digits.IntegerDigits(Value(c, StartNorthing));
    var ex := Digits.IntegerDigits(Value(c, EndEasting));
    var ey := Digits.IntegerDigits(Value(c, EndNorthing));
    assert forall f :: Digits.IntegerDigits(Value(c, f)) in {dx, dy, ex, ey} by {
      forall f ensures Digits.IntegerDigits(Value(c, f)) in {dx, dy, ex, ey} {
        assert f.StartEasting? || f.StartNorthing? || f.EndEasting? || f.EndNorthing?;
      }
    }
    dx == dy && dy == ex && ex == ey
  }

  /** Mixed magnitudes (2, 1, 3 and 1 digits) are rejected; four two-digit values pass. */
  lemma DigitsAgreeExamples()
    ensures !DigitsAgree(Coords(12.5, 7.3, 100.1, 8.9))
    ensures DigitsAgree(Coords(12.5, 34.2, 56.7, 78.9))
  {
  }

  /** Two points on either side of a power of ten are refused even when they are close:
      9.5 has one integer digit and 10.5 has two. */
  lemma PowerOfTenBoundaryRejected()
    ensures !DigitsAgree(Coords(9.5, 10.5, 10.5, 10.5))
  {
  }
}
