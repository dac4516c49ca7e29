/**
 * The `Rating` component: five stars, each full, half or empty, for a
 * rating `value`, and an optional caption.
 */
module Rating {
  import opened Wrappers

  datatype Star = Full | Half | Empty

  /** Star `i` (counted from 1): full at or above `i`, half from `i - 0.5`. */
  function StarAt(value: real, i: int): Star {
    if value >= i as real then Full
    else if value >= i as real - 0.5 then Half
    else Empty
  }

  /** What `Rating` renders: the five stars for `[1, 2, 3, 4, 5]`, and whether
      the caption is shown (only for a non-empty `text`). */
  function Rating(value: real, text: Option<string>): (r: (seq<Star>, bool))
    ensures |r.0| == 5
    ensures forall k :: 0 <= k < 5 ==> (r.0[k] == Full <==> value >= (k + 1) as real)
    ensures forall k :: 0 <= k < 5 ==> (r.0[k] == Half <==> (k + 1) as real - 0.5 <= value < (k + 1) as real)
    ensures r.1 <==> text.Some? && text.value != ""
  {
    (seq(5, k requires 0 <= k < 5 => StarAt(value, k + 1)), text.Some? && text.value != "")
  }

  /** At most one star is half. */
  lemma AtMostOneHalf(value: real, text: Option<string>, i: nat, j: nat)
    requires i < j < 5
    ensures !(Rating(value, text).0[i] == Half && Rating(value, text).0[j] == Half)
  {
  }

  /** The full stars come first, then at most one half star, then the empty
      ones. */
  lemma StarsInOrder(value: real, text: Option<string>, i: nat, j: nat)
    requires i < j < 5
    ensures var stars := Rating(value, text).0;
      && (stars[j] == Full ==> stars[i] == Full)
      && (stars[j] == Half ==> stars[i] == Full)
      && (stars[i] == Empty ==> stars[j] == Empty)
  {
  }

  /** The number of full stars is the rating's whole part, clipped to 0..5. */
  lemma FullCount(value: real, text: Option<string>, n: nat)
    requires n <= 5
    ensures var stars := Rating(value, text).0;
      (forall i :: 0 <= i < n ==> stars[i] == Full) && (forall i :: n <= i < 5 ==> stars[i] != Full)
      <==> (n == 0 && value < 1.0) || (0 < n < 5 && n as real <= value < (n + 1) as real) || (n == 5 && value >= 5.0)
  {
    var stars := Rating(value, text).0;
    var prefix := (forall i :: 0 <= i < n ==> stars[i] == Full) && (forall i :: n <= i < 5 ==> stars[i] != Full);
    if prefix {
      if n > 0 {
        assert stars[n - 1] == Full;
      }
      if n < 5 {
        assert stars[n] != Full;
      }
    }
    if (n == 0 && value < 1.0) || (0 < n < 5 && n as real <= value < (n + 1) as real) || (n == 5 && value >= 5.0) {
      forall i | 0 <= i < n ensures stars[i] == Full {
        assert (i + 1) as real <= n as real;
      }
      forall i | n <= i < 5 ensures stars[i] != Full {
        assert (i + 1) as real >= (n + 1) as real;
      }
    }
  }
}
