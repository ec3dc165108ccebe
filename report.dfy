/** The text reports, which the services build with StringBuilder appends,
    kept as the sequence of appended pieces. Keeping the pieces apart keeps
    apart the report's own wording (Lit) from text copied out of the input
    (Field), and leaves the rendering of numbers to text out of the model. */
module Report {

  datatype Piece =
    | Lit(text: string)      // fixed wording of the report
    | Field(text: string)    // a string copied from an input record
    | Number(value: real)    // a BigDecimal, rendered by its toString
    | Count(n: int)          // an int, rendered in decimal
    | Fixed2(value: real)    // a double, rendered by String.format("%.2f")

  type Text = seq<Piece>

  /** Somewhere in `t` the wording `caption` is immediately followed by
      `value`, as in `append(caption).append(value)`. */
  predicate Quotes(t: Text, caption: string, value: Piece)
  {
    exists i :: 0 <= i && i + 1 < |t| && t[i] == Lit(caption) && t[i + 1] == value
  }

  /** How many pieces of `t` are the fixed wording `s`. */
  function CountLit(t: Text, s: string): nat
  {
    if t == [] then 0
    else CountLit(t[..|t| - 1], s) + (if t[|t| - 1] == Lit(s) then 1 else 0)
  }

  /** Counting wording distributes over concatenation. */
  lemma {:induction false} CountLitAppend(a: Text, b: Text, s: string)
    ensures CountLit(a + b, s) == CountLit(a, s) + CountLit(b, s)
  {
    if b != [] {
      assert (a + b)[..|a + b| - 1] == a + b[..|b| - 1];
      CountLitAppend(a, b[..|b| - 1], s);
    } else {
      assert a + b == a;
    }
  }

  /** A wording occurs in a text exactly when it is counted at least once. */
  lemma {:induction false} CountLitPositive(t: Text, s: string)
    ensures CountLit(t, s) > 0 <==> Lit(s) in t
  {
    if t != [] {
      CountLitPositive(t[..|t| - 1], s);
      assert t == t[..|t| - 1] + [t[|t| - 1]];
    }
  }
}
