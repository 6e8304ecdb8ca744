/** CScriptArray for elements that are plain values: a raw buffer with some capacity, edited in place. */
module ScriptArrays {
  import opened ArrayEdits

  datatype Exception = OutOfMemory | TooLarge | OutOfBounds | Mismatching

  /** The header of a buffer, as the compiler pads it. */
  const HEADER: nat := 12

  /** The largest number of elements for a buffer whose size can be written down. */
  function MaxElements(elementSize: nat): (n: nat)
    ensures n < DWORD
  {
    var max := 0xFFFF_FFFF - HEADER + 1;
    if elementSize > 0 then
      QuotientIsSmaller(max, elementSize);
      max / elementSize
    else max
  }

  lemma ProductGrows(q: int, d: nat)
    requires d > 0
    ensures q > 0 ==> q * d >= q
    ensures q < 0 ==> q * d <= q
  {
  }

  lemma QuotientIsSmaller(n: nat, d: nat)
    requires d > 0
    ensures 0 <= n / d <= n
  {
    ProductGrows(n / d, d);
    assert n == n / d * d + n % d;
  }

  /** So many elements are accepted if and only if the header and they make up at most 2^32 octets; elements without a
      size count as octets. */
  lemma FitsExactly(n: nat, elementSize: nat)
    ensures n <= MaxElements(elementSize) <==> 12 + n * (if elementSize > 0 then elementSize else 1) <= 0x1_0000_0000
  {
    if elementSize > 0 {
      QuotientBounds(0xFFFF_FFF4, elementSize, n);
    }
  }

  lemma QuotientBounds(max: nat, d: nat, n: nat)
    requires d > 0
    ensures n <= max / d <==> n * d <= max
  {
    var q: nat := max / d;
    QuotientIsSmaller(max, d);
    QuotientCompared(max, d, n, q, max % d, n - q);
  }

  lemma QuotientCompared(max: nat, d: nat, n: nat, q: nat, r: nat, more: int)
    requires d > 0 && max == q * d + r && r < d && n == q + more
    ensures n <= q <==> n * d <= max
  {
    ProductGrows(more, d);
    assert n * d == q * d + more * d;
    if more > 0 {
      ProductGrows(more - 1, d);
      assert more * d == (more - 1) * d + d;
    }
  }

  /** The offset of an element, computed as a signed product, is one. */
  predicate Addressable(index: nat, elementSize: nat) {
    IsInt(index * elementSize)
  }

  /** Where no position wraps around, elements are put in, or overwrite others if there is no room. */
  lemma FilledStraight<T>(s: seq<T>, index: nat, t: seq<T>, zero: T)
    requires index <= |s|
    ensures |s| + |t| < DWORD ==>
              && OverwrittenAround(Resized(s, |t|, index, zero), index, t) == Spliced(s, index, t)
              && OverwrittenAround(s, index, t) == Overwritten(s, index, t)
  {
    if |s| + |t| < DWORD {
      OverwrittenStraight(Resized(s, |t|, index, zero), index, t);
      OverwrittenStraight(s, index, t);
      RoomFilled(s, index, t, zero);
    }
  }

  /** An array, unless its construction was refused. */
  datatype Creation<T(0,!new)> = Created(a: ScriptArray<T>) | Refused(raised: Exception)

  class ScriptArray<T(0,!new)> {
    const elementSize: nat
    const zero: T
    var buffer: array<T>
    var numElements: nat

    ghost predicate Valid()
      reads this
    {
      numElements <= buffer.Length <= MaxElements(elementSize)
    }

    ghost function Elements(): (s: seq<T>)
      requires Valid()
      reads this, buffer
      ensures |s| == numElements < DWORD
    {
      buffer[..numElements]
    }

    constructor (elementSize: nat, zero: T, length: nat)
      requires length <= MaxElements(elementSize)
      ensures Valid() && fresh(buffer)
      ensures this.elementSize == elementSize && this.zero == zero
      ensures Elements() == Repeated(length, zero)
    {
      this.elementSize, this.zero := elementSize, zero;
      numElements := length;
      buffer := new T[length](_ => zero);
    }

    /** An array of so many default elements, if their size can be written down and there is memory for them. */
    static method Create(elementSize: nat, zero: T, length: nat, granted: bool) returns (r: Creation<T>)
      ensures length > MaxElements(elementSize) ==> r == Refused(TooLarge)
      ensures length <= MaxElements(elementSize) && !granted ==> r == Refused(OutOfMemory)
      ensures length <= MaxElements(elementSize) && granted ==>
                && r.Created? && fresh(r.a) && fresh(r.a.buffer) && r.a.Valid()
                && r.a.elementSize == elementSize && r.a.zero == zero
                && r.a.Elements() == Repeated(length, zero)
    {
      if length > MaxElements(elementSize) {
        return Refused(TooLarge);
      }
      if !granted {
        return Refused(OutOfMemory);
      }
      var a := new ScriptArray<T>(elementSize, zero, length);
      r := Created(a);
    }

    predicate CheckMaxSize(n: nat) {
      n <= MaxElements(elementSize)
    }

    /** The exception with which room for so many more elements is refused. */
    ghost function Refusal(more: int, granted: bool): (r: set<Exception>)
      reads this
    {
      if more <= 0 then {}
      else if !CheckMaxSize(numElements + more) then {TooLarge}
      else if buffer.Length < numElements + more && !granted then {OutOfMemory}
      else {}
    }

    method Reserve(maxElements: nat, granted: bool) returns (raised: set<Exception>)
      requires Valid()
      modifies this`buffer
      ensures Valid() && (buffer == old(buffer) || fresh(buffer))
      ensures Elements() == old(Elements())
      ensures maxElements <= old(buffer.Length) ==> raised == {} && buffer == old(buffer)
      ensures maxElements > old(buffer.Length) && !CheckMaxSize(maxElements) ==> raised == {TooLarge}
      ensures maxElements > old(buffer.Length) && CheckMaxSize(maxElements) ==>
                if granted then raised == {} && buffer.Length == maxElements else raised == {OutOfMemory}
    {
      if maxElements <= buffer.Length {
        return {};
      }
      if !CheckMaxSize(maxElements) {
        return {TooLarge};
      }
      if !granted {
        return {OutOfMemory};
      }
      var newBuffer := new T[maxElements];
      forall i | 0 <= i < numElements {
        newBuffer[i] := buffer[i];
      }
      buffer := newBuffer;
      raised := {};
    }

    /** Overlapping copy inside the buffer. */
    method Move(to: nat, from: nat, count: nat)
      requires to + count <= buffer.Length && from + count <= buffer.Length
      modifies buffer
      ensures buffer[..to] == old(buffer[..to]) && buffer[to + count..] == old(buffer[to + count..])
      ensures buffer[to..to + count] == old(buffer[from..from + count])
    {
      ghost var moved := buffer[from..from + count];
      forall i | 0 <= i < count {
        buffer[to + i] := buffer[from + i];
      }
      forall i | 0 <= i < count ensures buffer[to..to + count][i] == moved[i] {
        assert buffer[to + i] == moved[i];
      }
    }

    method Construct(start: nat, end: nat)
      requires start <= end <= buffer.Length
      modifies buffer
      ensures buffer[..start] == old(buffer[..start]) && buffer[end..] == old(buffer[end..])
      ensures buffer[start..end] == Repeated(end - start, zero)
    {
      forall i | start <= i < end {
        buffer[i] := zero;
      }
    }

    /** A larger buffer, with the elements before and behind the room copied separately. */
    method Reallocate(delta: nat, at: nat)
      requires Valid() && at <= numElements && numElements + delta <= MaxElements(elementSize)
      modifies this`buffer, this`numElements
      ensures Valid() && fresh(buffer)
      ensures Elements() == Resized(old(Elements()), delta, at, zero)
    {
      var newBuffer := new T[numElements + delta];
      forall i | 0 <= i < at {
        newBuffer[i] := buffer[i];
      }
      forall i | at <= i < numElements {
        newBuffer[i + delta] := buffer[i];
      }
      forall i | at <= i < at + delta {
        newBuffer[i] := zero;
      }
      ghost var was := Elements();
      numElements := numElements + delta;
      buffer := newBuffer;
      RoomMade(Elements(), was, delta, at, zero);
    }

    method MoveDown(count: nat, at: nat)
      requires Valid() && at + count <= numElements
      modifies this`numElements, buffer
      ensures Valid()
      ensures Elements() == old(Elements()[..at]) + old(Elements()[at + count..])
    {
      Move(at, at + count, numElements - (at + count));
      numElements := numElements - count;
      assert old(Elements()[at + count..]) == old(buffer[at + count..numElements]);
      assert Elements() == buffer[..at] + buffer[at..numElements];
    }

    method MoveUp(count: nat, at: nat)
      requires Valid() && at <= numElements && numElements + count <= buffer.Length
      modifies this`numElements, buffer
      ensures Valid()
      ensures Elements() == Resized(old(Elements()), count, at, zero)
    {
      ghost var was := buffer[..];
      Move(at + count, at, numElements - at);
      ghost var moved := buffer[..];
      Construct(at, at + count);
      RoomMoved(was, moved, buffer[..], numElements, count, at, zero);
      numElements := numElements + count;
    }

    /** The second half of ResizeBy, with the change and the position cut to what there is. */
    method MakeRoom(delta: int, at: nat, granted: bool) returns (raised: set<Exception>, undefined: bool)
      requires Valid() && IsInt(delta) && delta != 0
      requires at <= numElements && (delta < 0 ==> numElements < INT_LIMIT && at <= numElements + delta)
      requires 0 < delta < DWORD - numElements ==> numElements + delta <= MaxElements(elementSize)
      modifies this`buffer, this`numElements, buffer
      ensures Valid() && (buffer == old(buffer) || (delta > 0 && fresh(buffer)))
      ensures undefined <==> old(numElements) + delta >= DWORD
      ensures undefined ==> buffer == old(buffer)
      ensures !undefined ==>
                raised == if delta > 0 && old(buffer.Length < numElements + delta) && !granted then {OutOfMemory} else {}
      ensures !undefined ==>
                Elements() == if raised == {} then Resized(old(Elements()), delta, at, zero) else old(Elements())
    {
      raised, undefined := {}, false;
      if buffer.Length < Wrapped(numElements + delta) {
        if !granted {
          return {OutOfMemory}, false;
        }
        Reallocate(delta, at);
      } else if delta < 0 {
        MoveDown(-delta, at);
      } else {
        if numElements + delta > buffer.Length {
          return {}, true;
        }
        MoveUp(delta, at);
      }
    }

    /** Making room or taking elements out at a position: by reallocation, by moving elements down, or by
        moving them up. Where a signed number overflows or octets behind the buffer are written, nothing is promised. */
    method ResizeBy(change: int, position: nat, granted: bool) returns (raised: set<Exception>, undefined: bool)
      requires Valid() && IsInt(change) && position < DWORD
      modifies this`buffer, this`numElements, buffer
      ensures Valid() && (buffer == old(buffer) || (change > 0 && fresh(buffer)))
      ensures undefined <==> ChangeUndefined(old(numElements), change)
      ensures !undefined ==> raised == old(Refusal(change, granted))
      ensures !undefined ==>
                Elements() == if raised == {} then Resized(old(Elements()), change, position, zero) else old(Elements())
    {
      raised, undefined := {}, false;
      var delta, at := change, position;
      if delta < 0 {
        if !IsInt(-delta) {
          return {}, true;
        }
        if -delta > AsInt(numElements) {
          delta := -AsInt(numElements);
          if !IsInt(delta) {
            return {}, true;
          }
        }
        if at > Wrapped(numElements + delta) {
          at := Wrapped(numElements + delta);
        }
      } else if delta > 0 {
        if !CheckMaxSize(Wrapped(numElements + delta)) {
          return {TooLarge}, false;
        }
        if at > numElements {
          at := numElements;
        }
      }
      if delta == 0 {
        return;
      }
      if !ChangeUndefined(numElements, change) {
        CutToSize(Elements(), change, position, delta, at, zero);
      }
      raised, undefined := MakeRoom(delta, at, granted);
    }

    method Resize(n: nat, granted: bool) returns (raised: set<Exception>, undefined: bool)
      requires Valid() && n < DWORD
      modifies this`buffer, this`numElements, buffer
      ensures Valid() && (buffer == old(buffer) || fresh(buffer))
      ensures undefined <==> CheckMaxSize(n) && ResizeUndefined(old(numElements), n)
      ensures !undefined ==>
                raised == if !CheckMaxSize(n) then {TooLarge} else old(Refusal(Change(numElements, n), granted))
      ensures !undefined && raised != {} ==> Elements() == old(Elements())
      ensures !undefined && raised == {} ==>
                Elements() == if old(numElements) < INT_LIMIT <= n then []
                              else if n <= old(numElements) then old(Elements()[..n])
                              else old(Elements()) + Repeated(n - old(numElements), zero)
    {
      if !CheckMaxSize(n) {
        return {TooLarge}, false;
      }
      var delta := Change(numElements, n);
      if !IsInt(delta) {
        return {}, true;
      }
      ResizeIsExact(Elements(), n, zero);
      raised, undefined := ResizeBy(delta, 0xFFFF_FFFF, granted);
    }

    /** Elements of the buffer taken from an earlier position on once more, up to the last one. */
    method MoveUpOver(to: nat, from: nat)
      requires Valid() && from <= to <= numElements && numElements + (to - from) <= buffer.Length
      modifies this`numElements, buffer
      ensures Valid()
      ensures Elements() == old(Elements()[..to]) + old(Elements()[from..])
    {
      Move(to, from, numElements - from);
      numElements := numElements + (to - from);
      assert old(Elements()[from..]) == old(buffer[from..numElements]);
      assert Elements() == buffer[..to] + buffer[to..numElements];
    }

    /** Taking out a range, cut to the end of the array. If the sum of start and count wraps around, elements are moved
        up instead, inside the buffer or behind it. */
    method RemoveRange(start: nat, count: nat) returns (raised: set<Exception>, undefined: bool)
      requires Valid() && start < DWORD && count < DWORD
      modifies this`numElements, buffer
      ensures Valid()
      ensures raised == if count > 0 && start > old(numElements) then {OutOfBounds} else {}
      ensures undefined <==>
                start <= old(numElements) && start + count >= DWORD && old(numElements) + (DWORD - count) > buffer.Length
      ensures start > old(numElements) ==> Elements() == old(Elements())
      ensures !undefined && start <= old(numElements) ==> Elements() == LeftByRemoval(old(Elements()), start, count)
      ensures !undefined && start <= old(numElements) && start + count < DWORD ==>
                Elements() == old(Elements()[..start])
                              + if start + count <= old(numElements) then old(Elements())[start + count..] else []
      ensures !undefined && start <= old(numElements) && start + count >= DWORD ==>
                Elements() == old(Elements()[..start]) + old(Elements())[start + count - DWORD..]
    {
      raised, undefined := {}, false;
      if count == 0 {
        return;
      }
      if start > numElements {
        return {OutOfBounds}, false;
      }
      var cut := count;
      if Wrapped(start + cut) > numElements {
        cut := numElements - start;
      }
      if start + cut < DWORD {
        MoveDown(cut, start);
      } else {
        var from := Wrapped(start + cut);
        if start + (numElements - from) > buffer.Length {
          return {}, true;
        }
        MoveUpOver(start, from);
      }
    }

    method SetValue(index: nat, value: T) returns (raised: set<Exception>)
      requires Valid() && index < DWORD
      modifies buffer
      ensures raised == if index < numElements then {} else {OutOfBounds}
      ensures Elements() == if index < numElements then old(Elements())[index := value] else old(Elements())
    {
      if index >= numElements {
        return {OutOfBounds};
      }
      buffer[index] := value;
      raised := {};
    }

    /** One more element. When there is no room, the value still overwrites the element at the position. */
    method InsertAt(index: nat, value: T, granted: bool) returns (raised: set<Exception>)
      requires Valid() && index < DWORD
      modifies this`buffer, this`numElements, buffer
      ensures Valid() && (buffer == old(buffer) || fresh(buffer))
      ensures index > old(numElements) ==> raised == {OutOfBounds} && Elements() == old(Elements())
      ensures index <= old(numElements) && old(Refusal(1, granted)) == {} ==>
                raised == {} && Elements() == old(Elements()[..index]) + [value] + old(Elements()[index..])
      ensures index <= old(numElements) && old(Refusal(1, granted)) != {} ==>
                && raised == old(Refusal(1, granted)) + (if index == old(numElements) then {OutOfBounds} else {})
                && Elements() == if index < old(numElements) then old(Elements())[index := value] else old(Elements())
    {
      if index > numElements {
        return {OutOfBounds};
      }
      RoomFilled(Elements(), index, [value], zero);
      var undefined;
      raised, undefined := ResizeBy(1, index, granted);
      assert Overwritten(Elements(), index, [value])
          == if index < numElements then Elements()[index := value] else Elements();
      var more := SetValue(index, value);
      raised := raised + more;
    }

    /** All elements of an array, which may be this one itself. */
    method InsertAllAt(index: nat, arr: ScriptArray<T>, sameType: bool, granted: bool)
      returns (raised: set<Exception>, undefined: bool)
      requires Valid() && arr.Valid() && index < DWORD
      requires arr != this ==> arr.buffer != buffer
      modifies this`buffer, this`numElements, buffer
      ensures Valid() && (buffer == old(buffer) || fresh(buffer))
      ensures index > old(numElements) ==> raised == {OutOfBounds} && Elements() == old(Elements())
      ensures index <= old(numElements) && !sameType ==> raised == {Mismatching} && Elements() == old(Elements())
      ensures undefined <==>
                && index <= old(numElements) && sameType
                && ChangeUndefined(old(numElements), AsInt(old(arr.numElements)))
      ensures index <= old(numElements) && sameType && !undefined && old(arr.numElements) < INT_LIMIT ==>
                var refusal, t := old(Refusal(arr.numElements, granted)), old(arr.Elements());
                if refusal == {} then
                  raised == {} && Elements() == old(Elements()[..index]) + t + old(Elements()[index..])
                else
                  var u := if arr == this then t[..index] else t;
                  && raised == refusal + (if index + |u| > old(numElements) then {OutOfBounds} else {})
                  && numElements == old(numElements)
                  && forall k :: 0 <= k < numElements ==>
                       Elements()[k] == if index <= k < index + |u| then u[k - index] else old(Elements())[k]
      ensures index <= old(numElements) && sameType && !undefined && old(arr.numElements) >= INT_LIMIT ==>
                && raised == {OutOfBounds}
                && Elements() == OverwrittenAround(Resized(old(Elements()), old(arr.numElements) - DWORD, index, zero),
                                                   index, old(arr.Elements()))
    {
      if index > numElements {
        return {OutOfBounds}, false;
      }
      if !sameType {
        return {Mismatching}, false;
      }
      if arr == this {
        raised, undefined := InsertItself(index, granted);
      } else {
        FilledStraight(Elements(), index, arr.Elements(), zero);
        raised, undefined := InsertOther(index, arr, granted);
      }
    }

    /** The elements of another array: the size changes by their number as a signed one, then they are set one by
        one, at positions computed in 32 bits. */
    method InsertOther(index: nat, arr: ScriptArray<T>, granted: bool)
      returns (raised: set<Exception>, undefined: bool)
      requires Valid() && arr.Valid() && arr != this && arr.buffer != buffer && index <= numElements
      modifies this`buffer, this`numElements, buffer
      ensures Valid() && (buffer == old(buffer) || fresh(buffer))
      ensures undefined <==> ChangeUndefined(old(numElements), AsInt(arr.numElements))
      ensures !undefined ==>
                var delta := AsInt(arr.numElements);
                var refusal := old(Refusal(delta, granted));
                var room := if refusal == {} then Resized(old(Elements()), delta, index, zero) else old(Elements());
                && raised == refusal
                             + (if arr.numElements > 0 && index + arr.numElements > |room| then {OutOfBounds} else {})
                && Elements() == OverwrittenAround(room, index, arr.Elements())
    {
      raised, undefined := ResizeBy(AsInt(arr.numElements), index, granted);
      if !undefined {
        var more := SetOthers(index, arr);
        raised := raised + more;
      }
    }

    /** The array's own elements, those before the room first. */
    method InsertItself(index: nat, granted: bool) returns (raised: set<Exception>, undefined: bool)
      requires Valid() && index <= numElements
      modifies this`buffer, this`numElements, buffer
      ensures Valid() && (buffer == old(buffer) || fresh(buffer))
      ensures undefined <==> ChangeUndefined(old(numElements), AsInt(old(numElements)))
      ensures !undefined ==>
                && old(numElements) < INT_LIMIT
                && var refusal := old(Refusal(numElements, granted));
                   if refusal == {} then raised == {} && Elements() == Spliced(old(Elements()), index, old(Elements()))
                   else
                     && raised == refusal + (if index + index > old(numElements) then {OutOfBounds} else {})
                     && Elements() == Overwritten(old(Elements()), index, old(Elements())[..index])
    {
      var elements := numElements;
      RoomFilled(Elements(), index, Elements(), zero);
      AroundRoom(Elements(), index, zero);
      AroundNoRoom(Elements(), index);
      raised, undefined := ResizeBy(AsInt(elements), index, granted);
      if !undefined {
        var more := SetOwn(index, elements);
        raised := raised + more;
      }
    }

    /** What is raised when so many elements are set from a position on. */
    ghost function Outside(index: nat, count: nat): set<Exception>
      reads this
    {
      if count > 0 && index + count > numElements then {OutOfBounds} else {}
    }

    method SetOthers(index: nat, arr: ScriptArray<T>) returns (raised: set<Exception>)
      requires Valid() && arr.Valid() && arr.buffer != buffer && index < DWORD
      modifies buffer
      ensures raised == Outside(index, arr.numElements)
      ensures Elements() == OverwrittenAround(old(Elements()), index, arr.Elements())
    {
      raised := {};
      for n := 0 to arr.numElements
        invariant raised == Outside(index, n)
        invariant Elements() == OverwrittenAround(old(Elements()), index, arr.buffer[..n])
      {
        OverwrittenAroundMore(old(Elements()), index, arr.buffer[..n], arr.buffer[n]);
        assert arr.buffer[..n + 1] == arr.buffer[..n] + [arr.buffer[n]];
        var more := SetValue(Wrapped(index + n), arr.buffer[n]);
        raised := raised + more;
      }
    }
    /** The elements before the room are read first, then those behind it. */
    method SetOwn(index: nat, elements: nat) returns (raised: set<Exception>)
      requires Valid() && index <= elements < INT_LIMIT && numElements in {elements, 2 * elements}
      modifies buffer
      ensures raised == if index > 0 && index + index > numElements then {OutOfBounds} else {}
      ensures Elements() == Overwritten(old(Elements()), index, Around(old(Elements()), index, elements))
    {
      ghost var was, own := Elements(), Around(Elements(), index, elements);
      raised := {};
      for n := 0 to index
        invariant raised == if n > 0 && index + n > numElements then {OutOfBounds} else {}
        invariant Elements() == Overwritten(was, index, own[..n])
      {
        OverwrittenMore(was, index, own[..n], own[n]);
        assert own[..n + 1] == own[..n] + [own[n]];
        assert Elements()[n] == own[n];
        var more := SetValue(index + n, buffer[n]);
        raised := raised + more;
      }
      if index + elements < numElements {
        SetOwnRest(index, elements, was);
      }
    }

    method SetOwnRest(index: nat, elements: nat, ghost was: seq<T>)
      requires Valid() && index <= elements < INT_LIMIT && numElements == 2 * elements == |was|
      requires Elements() == Overwritten(was, index, Around(was, index, elements)[..index])
      modifies buffer
      ensures Elements() == Overwritten(was, index, Around(was, index, elements))
    {
      ghost var own := Around(was, index, elements);
      var n, m := index + elements, 0;
      while n < numElements
        invariant n == index + elements + m && n <= numElements
        invariant Elements() == Overwritten(was, index, own[..index + m])
      {
        OverwrittenMore(was, index, own[..index + m], own[index + m]);
        assert own[..index + m + 1] == own[..index + m] + [own[index + m]];
        assert Elements()[n] == own[index + m];
        var more := SetValue(index + index + m, buffer[n]);
        n, m := n + 1, m + 1;
      }
      assert own[..index + m] == own;
    }

    method InsertLast(value: T, granted: bool) returns (raised: set<Exception>)
      requires Valid()
      modifies this`buffer, this`numElements, buffer
      ensures Valid() && (buffer == old(buffer) || fresh(buffer))
      ensures old(Refusal(1, granted)) == {} ==> raised == {} && Elements() == old(Elements()) + [value]
      ensures old(Refusal(1, granted)) != {} ==>
                raised == old(Refusal(1, granted)) + {OutOfBounds} && Elements() == old(Elements())
    {
      raised := InsertAt(numElements, value, granted);
    }

    method RemoveAt(index: nat) returns (raised: set<Exception>, undefined: bool)
      requires Valid() && index < DWORD
      modifies this`buffer, this`numElements, buffer
      ensures Valid() && buffer == old(buffer)
      ensures undefined <==> INT_LIMIT <= old(numElements) && index < old(numElements)
      ensures !undefined ==> raised == if index < old(numElements) then {} else {OutOfBounds}
      ensures !undefined ==>
                Elements() == if index < old(numElements) then old(Elements()[..index] + Elements()[index + 1..])
                              else old(Elements())
    {
      if index >= numElements {
        return {OutOfBounds}, false;
      }
      raised, undefined := ResizeBy(-1, index, true);
    }

    /** On an empty array the position wraps around and is out of bounds. */
    method RemoveLast() returns (raised: set<Exception>, undefined: bool)
      requires Valid()
      modifies this`buffer, this`numElements, buffer
      ensures Valid() && buffer == old(buffer)
      ensures undefined <==> INT_LIMIT <= old(numElements)
      ensures !undefined ==> raised == if old(numElements) == 0 then {OutOfBounds} else {}
      ensures !undefined ==> Elements() == if old(numElements) == 0 then [] else old(Elements()[..numElements - 1])
    {
      raised, undefined := RemoveAt(Wrapped(numElements - 1));
    }

    method Reverse() returns (undefined: bool)
      requires Valid()
      modifies buffer
      ensures undefined <==> numElements >= 2 && !Addressable(numElements - 1, elementSize)
      ensures forall k :: 0 <= k < numElements && !undefined ==> Elements()[k] == old(Elements())[numElements - 1 - k]
    {
      undefined := false;
      var size := numElements;
      if size >= 2 {
        if !Addressable(size - 1, elementSize) {
          return true;
        }
        for i := 0 to size / 2
          invariant forall k :: 0 <= k < i || size - i <= k < size ==> buffer[k] == old(buffer[size - 1 - k])
          invariant forall k :: i <= k < size - i ==> buffer[k] == old(buffer[k])
        {
          buffer[i], buffer[size - i - 1] := buffer[size - i - 1], buffer[i];
        }
      }
    }

    /** The range the sort of primitive values works on lies before the buffer or reaches beyond what can be
        addressed. */
    ghost predicate SortUndefined(startAt: nat, count: nat)
      requires Valid() && startAt < DWORD
      reads this
    {
      match Requested(numElements, startAt, count)
      case BeforeBuffer => true
      case Range(start, end) => !Addressable(end - 1, elementSize)
      case _ => false
    }

    /** The sort of primitive values: insertion sort of a range, in either direction. */
    method Sort(startAt: nat, count: nat, ascending: bool, less: (T, T) -> bool)
      returns (raised: set<Exception>, undefined: bool)
      requires Valid() && startAt < DWORD && count < DWORD
      modifies buffer
      ensures undefined <==> SortUndefined(startAt, count)
      ensures raised == if Requested(numElements, startAt, count).OutOfRange? then {OutOfBounds} else {}
      ensures !undefined ==>
                match Requested(numElements, startAt, count)
                case Range(start, end) =>
                  Elements() == RangeSorted(old(Elements()), start, end, Directed(less, ascending))
                case _ => Elements() == old(Elements())
      ensures !undefined && numElements < INT_LIMIT && startAt + count <= numElements ==>
                && raised == {} && multiset(Elements()) == multiset(old(Elements()))
                && Elements()[..startAt] == old(Elements()[..startAt])
                && Elements()[startAt + count..] == old(Elements()[startAt + count..])
                && (StrictWeak(less) ==>
                      && (ascending ==> forall i, j :: startAt <= i < j < startAt + count ==>
                                          !less(Elements()[j], Elements()[i]))
                      && (!ascending ==> forall i, j :: startAt <= i < j < startAt + count ==>
                                           !less(Elements()[i], Elements()[j]))
                      && EqualsInOrder(old(Elements()[startAt..startAt + count]),
                                       Elements()[startAt..startAt + count], less))
    {
      raised, undefined := {}, false;
      if count < 2 {
        return;
      }
      var start, end := AsInt(startAt), AsInt(Wrapped(startAt + count));
      if start >= AsInt(numElements) || end > AsInt(numElements) {
        return {OutOfBounds}, false;
      }
      if start < end {
        if start < 0 || !Addressable(end - 1, elementSize) {
          return {}, true;
        }
        SortBetween(start, end, ascending, less);
      }
    }

    /** The range sorted in the direction asked for. */
    method SortBetween(start: nat, end: nat, ascending: bool, less: (T, T) -> bool)
      requires Valid() && start < end <= numElements
      modifies buffer
      ensures Elements() == RangeSorted(old(Elements()), start, end, Directed(less, ascending))
      ensures multiset(Elements()) == multiset(old(Elements()))
      ensures Elements()[..start] == old(Elements()[..start]) && Elements()[end..] == old(Elements()[end..])
      ensures StrictWeak(less) ==> SortedRange(old(Elements()), Elements(), start, end, less, ascending)
    {
      ghost var was := Elements();
      InsertionSort(start, end, Directed(less, ascending));
      JoinedRange(Elements(), was, start, end, Directed(less, ascending));
      RangeIsSorted(was, start, end, less, ascending);
    }

    method InsertionSort(start: nat, end: nat, less: (T, T) -> bool)
      requires Valid() && start < end <= numElements
      modifies buffer
      ensures PartSorted(Elements(), old(Elements()), start, end, less)
    {
      ghost var was := Elements();
      var i := start + 1;
      SortedFirst(was, start, less);
      while i < end
        invariant start < i <= end
        invariant PartSorted(Elements(), was, start, i, less)
      {
        SortOneMore(start, i, less, was);
        i := i + 1;
      }
    }

    /** One turn of the sort: the value at position `i` joins those before it. */
    method SortOneMore(start: nat, i: nat, less: (T, T) -> bool, ghost was: seq<T>)
      requires Valid() && start <= i < numElements && PartSorted(Elements(), was, start, i, less)
      modifies buffer
      ensures PartSorted(Elements(), was, start, i + 1, less)
    {
      ghost var before := Elements();
      Sink(start, i, less);
      SortedOneMore(before, Elements(), was, start, i, less);
    }

    /** One value moved down from position `i` to its place. */
    method Sink(start: nat, i: nat, less: (T, T) -> bool)
      requires Valid() && start <= i < numElements
      modifies buffer
      ensures SunkFrom(old(Elements()), Elements(), start, i, less)
    {
      ghost var was := Elements();
      var tmp := buffer[i];
      var j := i - 1;
      while j >= start && less(tmp, buffer[j])
        invariant start - 1 <= j < i
        invariant forall k :: 0 <= k <= j || i < k < numElements ==> buffer[k] == was[k]
        invariant forall k :: j + 1 < k <= i ==> buffer[k] == was[k - 1] && less(tmp, buffer[k])
      {
        buffer[j + 1] := buffer[j];
        j := j - 1;
      }
      buffer[j + 1] := tmp;
      SunkIs(Elements(), was, start, j + 1, i, less);
    }

    /** The elements that can be addressed. */
    function Reach(): nat -> bool {
      (k: nat) => Addressable(k, elementSize)
    }

    /** The sort with a comparison callback: however its calls end, the elements are only rearranged, and they end
        up in order if all calls finish and answer by a comparison to rely on. It is undefined exactly when the first
        element that it is to exchange and that cannot be addressed is met. */
    method SortWith(ask: (nat, T, T) -> Answer, startAt: nat, count: nat, ghost less: (T, T) -> bool)
      returns (raised: set<Exception>, undefined: bool)
      requires Valid() && startAt < DWORD && count < DWORD
      modifies buffer
      ensures raised == if count >= 2 && startAt >= numElements then {OutOfBounds} else {}
      ensures undefined <==>
                && count >= 2 && startAt < numElements
                && MeetsUnreachable(ask, old(Elements()), startAt, Min(startAt + count, numElements), 0, Reach())
      ensures !undefined && count >= 2 && startAt < numElements ==>
                Elements() == Selected(ask, old(Elements()), startAt, Min(startAt + count, numElements), 0)
      ensures multiset(Elements()) == multiset(old(Elements()))
      ensures forall k :: 0 <= k < numElements && !(count >= 2 && startAt <= k < startAt + count) ==>
                Elements()[k] == old(Elements()[k])
      ensures !undefined && StrictWeak(less) && Answers(ask, less) && startAt <= numElements ==>
                Ordered(Elements()[startAt..Min(startAt + count, numElements)], less)
    {
      raised, undefined := {}, false;
      if count < 2 {
        return;
      }
      var start := startAt;
      var end := if startAt + count >= DWORD then 0xFFFF_FFFF else startAt + count;
      if end > numElements {
        end := numElements;
      }
      if start >= numElements {
        return {OutOfBounds}, false;
      }
      undefined := SelectionSort(ask, start, end, less);
    }

    /** The selection sort; it ends early where it would swap an element that cannot be addressed. */
    method SelectionSort(ask: (nat, T, T) -> Answer, start: nat, end: nat, ghost less: (T, T) -> bool)
      returns (undefined: bool)
      requires Valid() && start <= end <= numElements
      modifies buffer
      ensures undefined <==> MeetsUnreachable(ask, old(Elements()), start, end, 0, Reach())
      ensures !undefined ==> Elements() == Selected(ask, old(Elements()), start, end, 0)
      ensures multiset(Elements()) == multiset(old(Elements()))
      ensures forall k :: 0 <= k < start || end <= k < numElements ==> buffer[k] == old(buffer[k])
      ensures !undefined && StrictWeak(less) && Answers(ask, less) ==> Ordered(Elements()[start..end], less)
    {
      ghost var was := Elements();
      undefined := SelectEach(ask, start, end, less);
      assert forall k :: 0 <= k < start || end <= k < numElements ==> Elements()[k] == was[k];
      if !undefined && Reliable(ask, less) {
        OrderedRange(Elements(), start, end, less);
      }
    }

    /** Its loop: one element after the other is selected. */
    method SelectEach(ask: (nat, T, T) -> Answer, start: nat, end: nat, ghost less: (T, T) -> bool)
      returns (undefined: bool)
      requires Valid() && start <= end <= numElements
      modifies buffer
      ensures undefined <==> MeetsUnreachable(ask, old(Elements()), start, end, 0, Reach())
      ensures !undefined ==> Elements() == Selected(ask, old(Elements()), start, end, 0)
      ensures Rearranged(old(Elements()), Elements(), start, end)
      ensures !undefined && Reliable(ask, less) ==> InFront(Elements(), start, end, end, less)
    {
      ghost var was := Elements();
      var i, calls := start, 0;
      undefined := false;
      while i + 1 < end
        invariant start <= i <= end && SelectedUpTo(ask, was, start, Elements(), i, end, calls, Reach(), less)
      {
        ghost var before, callsBefore := Elements(), calls;
        undefined, calls := SelectOne(ask, start, i, end, calls, less);
        UpToOneMore(ask, was, start, before, Elements(), i, end, callsBefore, calls, Reach(), undefined, less);
        if undefined {
          return;
        }
        i := i + 1;
      }
      UpToTheEnd(ask, was, start, Elements(), i, end, calls, Reach(), less);
    }

    /** One turn of the selection sort. */
    method SelectOne(ask: (nat, T, T) -> Answer, start: nat, i: nat, end: nat, before: nat, ghost less: (T, T) -> bool)
      returns (undefined: bool, calls: nat)
      requires Valid() && start <= i && i + 1 < end <= numElements
      requires Reliable(ask, less) ==> InFront(Elements(), start, i, end, less)
      modifies buffer
      ensures Turned(ask, old(Elements()), Elements(), i, end, before, calls, Reach(), undefined)
      ensures Rearranged(old(Elements()), Elements(), i, end)
      ensures !undefined && Reliable(ask, less) ==> InFront(Elements(), start, i + 1, end, less)
    {
      var best;
      best, calls := Select(ask, i, end, before, less);
      if StrictWeak(less) && Answers(ask, less) {
        InFrontMore(Elements(), start, i, end, best, less);
      }
      undefined := best != i && !Addressable(best, elementSize);
      if best != i && !undefined {
        Swap(i, best);
      }
    }

    /** The search for the least element from position `i` on; a call that does not finish ends it. */
    method Select(ask: (nat, T, T) -> Answer, i: nat, end: nat, before: nat, ghost less: (T, T) -> bool)
      returns (best: nat, calls: nat)
      requires Valid() && i < end <= numElements
      ensures (best, calls) == Scanned(ask, Elements(), i, i + 1, end, before) && i <= best < end
      ensures StrictWeak(less) && Answers(ask, less) ==> forall k :: i <= k < end ==> !less(buffer[k], buffer[best])
    {
      ghost var reliable := StrictWeak(less) && Answers(ask, less);
      best, calls := i, before;
      var j := i + 1;
      while j < end
        invariant i <= best < j <= end
        invariant Scanned(ask, Elements(), best, j, end, calls) == Scanned(ask, Elements(), i, i + 1, end, before)
        invariant reliable ==> forall k :: i <= k < j ==> !less(buffer[k], buffer[best])
      {
        var answer := ask(calls, buffer[j], buffer[best]);
        calls := calls + 1;
        if answer.Failed? {
          break;
        }
        if answer.less {
          forall k | i <= k < j && reliable ensures !less(buffer[k], buffer[j]) {
            StillLeast(buffer[k], buffer[best], buffer[j], less);
          }
          best := j;
        }
        j := j + 1;
      }
    }

    method Swap(i: nat, j: nat)
      requires Valid() && i < j < numElements
      modifies buffer
      ensures Elements() == Exchanged(old(Elements()), i, j)
      ensures multiset(Elements()) == multiset(old(Elements()))
      ensures forall k :: 0 <= k < buffer.Length && k != i && k != j ==> buffer[k] == old(buffer[k])
      ensures buffer[i] == old(buffer[j]) && buffer[j] == old(buffer[i])
    {
      SwappedIsPermutation(Elements(), i, j);
      var tmp := buffer[i];
      buffer[i] := buffer[j];
      buffer[j] := tmp;
    }
  }
}
