/** `add_to_front` and `add_to_back` of npy.py: shift a fixed-length buffer in
    place and write new values at one end, discarding as many at the other. */
module NpyBuffer {
  import opened Common

  /** The `value_s` argument: a single value, or a collection of values. */
  datatype Values<T> = Scalar(value: T) | Collection(items: seq<T>)

  /** The values written by a call, as a collection (a scalar is one item). */
  function Items<T>(v: Values<T>): (r: seq<T>)
    ensures v.Scalar? ==> r == [v.value]
    ensures v.Collection? ==> r == v.items
  {
    match v
    case Scalar(x) => [x]
    case Collection(xs) => xs
  }

  /** When a call succeeds: a scalar needs a slot to land in, and a
      collection must not be longer than the buffer, except that numpy
      broadcasts a one-item collection into the empty slice of an empty
      buffer. */
  predicate Fits<T>(length: nat, v: Values<T>)
  {
    match v
    case Scalar(_) => length >= 1
    case Collection(xs) => |xs| <= length || (length == 0 && |xs| == 1)
  }

  /** The buffer after `items` entered at the front and as many old values
      fell off the back. */
  function ShiftedFront<T>(s: seq<T>, items: seq<T>): (r: seq<T>)
    requires |items| <= |s|
    ensures |r| == |s|
    ensures r[..|items|] == items
    ensures r[|items|..] == s[..|s| - |items|]
  {
    items + s[..|s| - |items|]
  }

  /** The buffer after `items` entered at the back and as many old values
      fell off the front. */
  function ShiftedBack<T>(s: seq<T>, items: seq<T>): (r: seq<T>)
    requires |items| <= |s|
    ensures |r| == |s|
    ensures r[..|s| - |items|] == s[|items|..]
    ensures r[|s| - |items|..] == items
  {
    s[|items|..] + items
  }

  /** The exception a call that does not fit raises, after the shift,
      which then moves nothing: writing a scalar to index 0 of an empty
      buffer, or a collection of two or more items into a shorter slice. */
  function Failure<T>(v: Values<T>): PyError
  {
    if v.Scalar? then IndexError else ValueError
  }

  /** npy.py `add_to_front`: returns the very buffer it was given. */
  method AddToFront<T>(buffer: array<T>, v: Values<T>) returns (r: Result<array<T>>)
    modifies buffer
    ensures Fits(buffer.Length, v) ==> r == Ok(buffer)
    ensures !Fits(buffer.Length, v) ==> r == Err(Failure(v))
    ensures |Items(v)| <= buffer.Length ==> buffer[..] == ShiftedFront(old(buffer[..]), Items(v))
    // no room for the values: an error, or a broadcast into an empty buffer
    ensures |Items(v)| > buffer.Length ==> buffer[..] == old(buffer[..])
  {
    var items := Items(v);
    if |items| > buffer.Length {
      return if Fits(buffer.Length, v) then Ok(buffer) else Err(Failure(v));
    }
    var n := |items|;
    if n > 0 {
      // buffer[n:] = buffer[:-n]; numpy copies the overlapping source first
      var moved := buffer[..buffer.Length - n];
      forall i | n <= i < buffer.Length {
        buffer[i] := moved[i - n];
      }
      // buffer[0:n] = value_s
      forall i | 0 <= i < n {
        buffer[i] := items[i];
      }
      assert buffer[..] == items + moved;
    }
    r := Ok(buffer);
  }

  /** npy.py `add_to_back`: returns the very buffer it was given. */
  method AddToBack<T>(buffer: array<T>, v: Values<T>) returns (r: Result<array<T>>)
    modifies buffer
    ensures Fits(buffer.Length, v) ==> r == Ok(buffer)
    ensures !Fits(buffer.Length, v) ==> r == Err(Failure(v))
    ensures |Items(v)| <= buffer.Length ==> buffer[..] == ShiftedBack(old(buffer[..]), Items(v))
    // no room for the values: an error, or a broadcast into an empty buffer
    ensures |Items(v)| > buffer.Length ==> buffer[..] == old(buffer[..])
  {
    var items := Items(v);
    if |items| > buffer.Length {
      return if Fits(buffer.Length, v) then Ok(buffer) else Err(Failure(v));
    }
    var n := |items|;
    if n > 0 {
      var len := buffer.Length;
      // buffer[:-n] = buffer[n:]
      var moved := buffer[n..];
      forall i | 0 <= i < len - n {
        buffer[i] := moved[i];
      }
      // buffer[-n:] = value_s
      forall i | len - n <= i < len {
        buffer[i] := items[i - (len - n)];
      }
      assert buffer[..] == moved + items;
    }
    r := Ok(buffer);
  }

  /** Pushing a collection to the front is pushing its items one at a time,
      last item first. */
  lemma {:induction false} FrontIsRepeatedScalarPush<T>(s: seq<T>, items: seq<T>)
    requires |items| <= |s|
    ensures ShiftedFront(s, items) == PushEachToFront(s, items)
    decreases |items|
  {
    if items != [] {
      var last := items[|items| - 1];
      var init := items[..|items| - 1];
      var s' := ShiftedFront(s, [last]);
      FrontIsRepeatedScalarPush(s', init);
      calc {
        ShiftedFront(s', init);
        init + ([last] + s[..|s| - 1])[..|s| - |init|];
        { assert |s| - |init| == |s| - |items| + 1; }
        init + [last] + s[..|s| - |items|];
        { assert init + [last] == items; }
        ShiftedFront(s, items);
      }
    }
  }

  /** Pushes the items one at a time, as scalars, starting with the last. */
  function PushEachToFront<T>(s: seq<T>, items: seq<T>): (r: seq<T>)
    requires |items| <= |s|
    ensures |r| == |s|
    decreases |items|
  {
    if items == [] then s
    else PushEachToFront(ShiftedFront(s, [items[|items| - 1]]), items[..|items| - 1])
  }

  /** Pushing a collection to the back is pushing its items one at a time,
      first item first. */
  lemma {:induction false} BackIsRepeatedScalarPush<T>(s: seq<T>, items: seq<T>)
    requires |items| <= |s|
    ensures ShiftedBack(s, items) == PushEachToBack(s, items)
    decreases |items|
  {
    if items != [] {
      var s' := ShiftedBack(s, [items[0]]);
      BackIsRepeatedScalarPush(s', items[1..]);
      calc {
        ShiftedBack(s', items[1..]);
        (s[1..] + [items[0]])[|items| - 1..] + items[1..];
        s[|items|..] + [items[0]] + items[1..];
        { assert [items[0]] + items[1..] == items; }
        ShiftedBack(s, items);
      }
    }
  }

  /** Pushes the items one at a time, as scalars, starting with the first. */
  function PushEachToBack<T>(s: seq<T>, items: seq<T>): (r: seq<T>)
    requires |items| <= |s|
    ensures |r| == |s|
    decreases |items|
  {
    if items == [] then s
    else PushEachToBack(ShiftedBack(s, [items[0]]), items[1..])
  }

  /** A full-length push replaces the whole buffer, at either end. */
  lemma FullPushReplacesAll<T>(s: seq<T>, items: seq<T>)
    requires |items| == |s|
    ensures ShiftedFront(s, items) == items
    ensures ShiftedBack(s, items) == items
  {
  }

  /** A back push is undone by pushing the values it discarded back onto the
      front: nothing but the discarded values is lost. */
  lemma FrontPushUndoesBackPush<T>(s: seq<T>, items: seq<T>)
    requires |items| <= |s|
    ensures ShiftedFront(ShiftedBack(s, items), s[..|items|]) == s
  {
    var k := |items|;
    var b := ShiftedBack(s, items);
    assert b[..|s| - k] == s[k..];
    assert s[..k] + s[k..] == s;
  }
}
