/**
 Values shared by the whole client model: JavaScript's `undefined`/`null`
 as `Option`, the exceptions the modelled code can raise, and the ceiling
 division `Math.ceil(n / size)` that page and chunk counts use.
 */
module Common {

  datatype Option<+T> = None | Some(value: T)

  /** The exceptions the modelled JavaScript raises. */
  datatype JsError =
    | NotIterable(what: string)          // TypeError: `for (const x of undefined)`
    | ReadOfUndefined(property: string)  // TypeError: `undefined.property`
    | UnreadableFile(path: string)       // `fs.readFileSync` or `JSON.parse` failing

  /** A value, or the exception raised while computing it. */
  datatype Result<+R> = Ok(value: R) | Raised(error: JsError)

  /** JavaScript truthiness of an optional string: `undefined`, `null` and `""` are falsy. */
  predicate Truthy(s: Option<string>)
  {
    s.Some? && s.value != ""
  }

  /** `Math.ceil(n / size)` for a non-negative integer `n`. */
  function CeilDiv(n: nat, size: nat): nat
    requires size > 0
  {
    (n + size - 1) / size
  }

  /** Euclidean division is determined by any quotient/remainder pair. */
  lemma DivUnique(a: int, size: int, q: int, r: int)
    requires size > 0 && 0 <= r < size && a == q * size + r
    ensures a / size == q
  {
    var q0, r0 := a / size, a % size;
    assert a == q0 * size + r0;
    var d := q - q0;
    assert d * size == q * size - q0 * size;
    assert d * size == r0 - r;
    if d >= 1 {
      MulAtLeast(d, size);
    } else if d <= -1 {
      MulAtLeast(-d, size);
    }
  }

  lemma MulAtLeast(d: int, size: int)
    requires d >= 1 && size > 0
    ensures d * size >= size
  {
  }

  /** `CeilDiv(n, size)` is the least number of `size`-sized pages that hold `n` items. */
  lemma CeilDivIsLeast(n: nat, size: nat)
    requires size > 0
    ensures CeilDiv(n, size) * size >= n
    ensures CeilDiv(n, size) > 0 ==> (CeilDiv(n, size) - 1) * size < n
  {
  }

  /** One more full page adds exactly one to the page count. */
  lemma CeilDivStep(n: nat, size: nat)
    requires size > 0
    ensures CeilDiv(n + size, size) == CeilDiv(n, size) + 1
  {
    var a := n + size - 1;
    var q, r := a / size, a % size;
    assert a == q * size + r;
    DivUnique(a + size, size, q + 1, r);
  }

  /** No items need no pages; between one and `size` items need exactly one. */
  lemma CeilDivSmall(n: nat, size: nat)
    requires size > 0 && n <= size
    ensures CeilDiv(n, size) == if n == 0 then 0 else 1
  {
  }
}
