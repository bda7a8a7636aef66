/** Values shared by every part of the catalogue model: optional values, the
    JavaScript values whose truthiness the code tests, and thrown errors. */
module Common {

  /** `undefined`/`null` versus a present value. */
  datatype Option<+T> = None | Some(value: T) {
    function GetOr(default: T): T
    {
      match this
      case Some(v) => v
      case None => default
    }
  }

  /** Success with a value, or a thrown error. */
  datatype Result<+T, +E> = Ok(value: T) | Err(error: E)

  /** The JavaScript values the core inspects; `Obj` stands for any object or array. */
  datatype JsValue = Undefined | Null | Bool(b: bool) | Num(n: int) | NaN | Str(s: string) | Obj

  /** JavaScript truthiness (`!v` is `!Truthy(v)`). */
  predicate Truthy(v: JsValue) {
    match v
    case Undefined => false
    case Null => false
    case Bool(b) => b
    case Num(n) => n != 0
    case NaN => false
    case Str(s) => s != ""
    case Obj => true
  }

  /** The properties of a thrown error object that the core reads:
      `name`, `code`, `message` and `errno` (absent ones are `None`). */
  datatype JsError = JsError(name: string, code: Option<string>, message: Option<string>, errno: Option<int>)

  /** `new Error(message)`: name "Error", no code, no errno. */
  function PlainError(message: string): JsError
  {
    JsError("Error", None, Some(message), None)
  }

  /** `xs` is `ys` with some elements left out, the rest in their order. */
  predicate Subsequence<T(==)>(xs: seq<T>, ys: seq<T>) {
    if xs == [] then true
    else if ys == [] then false
    else if xs[0] == ys[0] then Subsequence(xs[1..], ys[1..])
    else Subsequence(xs, ys[1..])
  }

  /** A subsequence of `ys` is one of `[y] + ys`. */
  lemma {:induction false} SubsequenceSkip<T>(xs: seq<T>, y: T, ys: seq<T>)
    requires Subsequence(xs, ys)
    ensures Subsequence(xs, [y] + ys)
    decreases |ys| + 1, 0
  {
    assert ([y] + ys)[1..] == ys;
    if xs != [] && xs[0] == y {
      SubsequenceTail(xs, ys);
    }
  }

  /** Dropping the first element of a subsequence leaves a subsequence. */
  lemma {:induction false} SubsequenceTail<T>(xs: seq<T>, ys: seq<T>)
    requires xs != [] && Subsequence(xs, ys)
    ensures Subsequence(xs[1..], ys)
    decreases |ys|, 1
  {
    assert [ys[0]] + ys[1..] == ys;
    if xs[0] == ys[0] {
      SubsequenceSkip(xs[1..], ys[0], ys[1..]);
    } else {
      SubsequenceTail(xs, ys[1..]);
      SubsequenceSkip(xs[1..], ys[0], ys[1..]);
    }
  }

  /** A subsequence of `ws` is one of `ys + ws`. */
  /** One step of a filter's count: appending `id` to the input, and to the
      output exactly when it is kept, keeps the output's count of `x` equal to
      the input's when `x` is kept and zero when it is not. */
  lemma FilterCountStep<T>(out: seq<T>, outInit: seq<T>, input: seq<T>, init: seq<T>, id: T, keepId: bool, x: T, keepX: bool)
    requires input == init + [id]
    requires out == outInit + (if keepId then [id] else [])
    requires id == x ==> keepId == keepX
    requires multiset(outInit)[x] == if keepX then multiset(init)[x] else 0
    ensures multiset(out)[x] == if keepX then multiset(input)[x] else 0
  {
    assert multiset(input) == multiset(init) + multiset{id};
    assert multiset(out) == multiset(outInit) + multiset(if keepId then [id] else []);
  }

  lemma {:induction false} SubsequencePrepend<T>(zs: seq<T>, ys: seq<T>, ws: seq<T>)
    requires Subsequence(zs, ws)
    ensures Subsequence(zs, ys + ws)
  {
    if ys != [] {
      SubsequencePrepend(zs, ys[1..], ws);
      assert [ys[0]] + (ys[1..] + ws) == ys + ws;
      SubsequenceSkip(zs, ys[0], ys[1..] + ws);
    } else {
      assert ys + ws == ws;
    }
  }

  /** Subsequences of two lists concatenate to a subsequence of their concatenation. */
  lemma {:induction false} SubsequenceAppend<T>(xs: seq<T>, ys: seq<T>, zs: seq<T>, ws: seq<T>)
    requires Subsequence(xs, ys) && Subsequence(zs, ws)
    ensures Subsequence(xs + zs, ys + ws)
    decreases |ys|
  {
    if xs == [] {
      assert xs + zs == zs;
      SubsequencePrepend(zs, ys, ws);
    } else {
      assert (xs + zs)[0] == xs[0] && (ys + ws)[0] == ys[0];
      assert (ys + ws)[1..] == ys[1..] + ws;
      if xs[0] == ys[0] {
        assert (xs + zs)[1..] == xs[1..] + zs;
        SubsequenceAppend(xs[1..], ys[1..], zs, ws);
      } else {
        SubsequenceAppend(xs, ys[1..], zs, ws);
      }
    }
  }

  /** A longer prefix is a prefix followed by a prefix of what comes after it. */
  lemma PrefixOfSuffix<T>(xs: seq<T>, n: nat, k: nat)
    requires n + k <= |xs|
    ensures xs[..n + k] == xs[..n] + xs[n..][..k]
  {
    assert forall i :: n <= i < n + k ==> xs[n..][..k][i - n] == xs[i];
  }

  /** The numbers `1..n` that `keep` selects, ascending. */
  function Selected(n: nat, keep: nat -> bool): seq<nat> {
    if n == 0 then [] else Selected(n - 1, keep) + (if keep(n) then [n] else [])
  }

  /** Every selected number is in `1..n` and kept. */
  lemma {:induction false} SelectedSound(n: nat, keep: nat -> bool)
    ensures forall i :: 0 <= i < |Selected(n, keep)| ==> keep(Selected(n, keep)[i]) && 1 <= Selected(n, keep)[i] <= n
  {
    if n > 0 {
      var rest := Selected(n - 1, keep);
      assert forall i :: 0 <= i < |rest| ==> Selected(n, keep)[i] == rest[i];
      SelectedSound(n - 1, keep);
    }
  }

  /** Every kept number of `1..n` is selected. */
  lemma {:induction false} SelectedComplete(n: nat, keep: nat -> bool)
    ensures forall id: nat :: 1 <= id <= n && keep(id) ==> id in Selected(n, keep)
  {
    if n > 0 {
      var rest := Selected(n - 1, keep);
      assert forall id :: id in rest ==> id in Selected(n, keep);
      SelectedComplete(n - 1, keep);
    }
  }

  /** The selection is strictly ascending. */
  lemma {:induction false} SelectedAscending(n: nat, keep: nat -> bool)
    ensures forall i, j :: 0 <= i < j < |Selected(n, keep)| ==> Selected(n, keep)[i] < Selected(n, keep)[j]
  {
    if n > 0 {
      var rest := Selected(n - 1, keep);
      assert forall i :: 0 <= i < |rest| ==> Selected(n, keep)[i] == rest[i];
      SelectedSound(n - 1, keep);
      SelectedAscending(n - 1, keep);
    }
  }
}
