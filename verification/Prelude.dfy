/** Vocabulary shared by every module: options, results, and the fixed-width
    saturating arithmetic that the run ledgers are kept in. */
module Prelude {

  datatype Option<+T> = None | Some(value: T)

  datatype Result<+T, +E> = Ok(value: T) | Err(error: E)

  const U8_MAX := 0xFF
  const U32_MAX := 0xFFFF_FFFF
  const U64_MAX := 0xFFFF_FFFF_FFFF_FFFF

  type U8 = x: int | 0 <= x <= U8_MAX
  type U32 = x: int | 0 <= x <= U32_MAX
  type U64 = x: int | 0 <= x <= U64_MAX

  function Min(a: int, b: int): int {
    if a < b then a else b
  }

  function Max(a: int, b: int): int {
    if a < b then b else a
  }

  /** `saturating_add` on 32 bits; also clamps a wider right-hand side, as
      `try_from(..).unwrap_or(MAX)` does before the addition. */
  function SatAdd32(a: U32, b: nat): U32 {
    Min(a + b, U32_MAX)
  }

  function SatAdd64(a: U64, b: nat): U64 {
    Min(a + b, U64_MAX)
  }

  function SatSub(a: nat, b: nat): nat {
    if a < b then 0 else a - b
  }

  function SatMul64(a: U64, b: U64): U64 {
    Min(Product(a, b), U64_MAX)
  }

  /** `a` added `b` times; written as a recursion so that no proof about shares and
      ledgers meets nonlinear arithmetic. */
  function Product(a: nat, b: nat): nat
    decreases b
  {
    if b == 0 then 0 else Product(a, b - 1) + a
  }

  lemma {:induction false} ProductIsTimes(a: nat, b: nat)
    ensures Product(a, b) == a * b
    decreases b
  {
    if b > 0 {
      ProductIsTimes(a, b - 1);
      assert a * b == a * (b - 1) + a;
    }
  }

  lemma {:induction false} ProductSplit(a: nat, c: nat, b: nat)
    ensures Product(a + c, b) == Product(a, b) + Product(c, b)
    decreases b
  {
    if b > 0 {
      ProductSplit(a, c, b - 1);
    }
  }

  lemma {:induction false} ProductOfOne(b: nat)
    ensures Product(1, b) == b && Product(0, b) == 0
    decreases b
  {
    if b > 0 {
      ProductOfOne(b - 1);
    }
  }

  lemma ProductMonotone(a: nat, b: nat, c: nat)
    requires a <= b
    ensures Product(a, c) <= Product(b, c)
  {
    ProductSplit(a, b - a, c);
  }

  lemma {:induction false} ProductAtLeast(a: nat, b: nat)
    requires b > 0
    ensures a <= Product(a, b)
    decreases b
  {
    if b > 1 {
      ProductAtLeast(a, b - 1);
    }
  }

  lemma Regroup<T>(a: seq<T>, b: seq<T>, c: seq<T>)
    ensures (a + b) + c == a + (b + c)
  {
  }

  /** One part of a total divided among `parts`, rounded down. */
  function Share(total: nat, parts: nat): (share: nat)
    requires parts > 0
    ensures share <= total
    ensures Product(share, parts) <= total < Product(share, parts) + parts
  {
    var share := total / parts;
    assert total == share * parts + total % parts;
    ProductIsTimes(share, parts);
    ProductAtLeast(share, parts);
    share
  }
}

/** Decimal rendering of unsigned integers, as used inside effect identities. */
module Decimal {

  function Digit(d: nat): char
    requires d < 10
  {
    "0123456789"[d]
  }

  function Render(n: nat): (text: string)
    ensures |text| > 0
    ensures n < 10 ==> |text| == 1
    ensures 10 <= n ==> 1 < |text|
  {
    if n < 10 then [Digit(n)] else Render(n / 10) + [Digit(n % 10)]
  }

  /** Distinct numbers render to distinct text. */
  lemma {:induction false} RenderInjective(a: nat, b: nat)
    requires Render(a) == Render(b)
    ensures a == b
  {
    var ta, tb := Render(a), Render(b);
    assert ta[|ta| - 1] == Digit(a % 10) && tb[|tb| - 1] == Digit(b % 10);
    if 10 <= a && 10 <= b {
      assert ta[..|ta| - 1] == Render(a / 10) && tb[..|tb| - 1] == Render(b / 10);
      RenderInjective(a / 10, b / 10);
    }
  }
}

/** JSON values. Object members keep their order; numbers keep their source text. */
module Json {
  import opened Prelude

  datatype Member = Member(key: string, value: Json)

  datatype Json =
    | Null
    | Bool(flag: bool)
    | Number(text: string)
    | String(text: string)
    | Array(items: seq<Json>)
    | Object(members: seq<Member>)
  {
    /** `Value::get(key)`: the member of an object, nothing for any other value. */
    function Get(key: string): (r: Option<Json>)
      ensures r.Some? ==> r.value < this
    {
      if Object? then Find(members, key) else None
    }

    function AsString(): Option<string> {
      if String? then Some(text) else None
    }

    predicate IsObject() {
      Object?
    }
  }

  function Find(members: seq<Member>, key: string): (r: Option<Json>)
    ensures r.Some? ==> exists i :: 0 <= i < |members| && members[i] == Member(key, r.value)
  {
    if members == [] then None
    else if members[0].key == key then
      assert members[0] == Member(key, members[0].value);
      Some(members[0].value)
    else
      var r := Find(members[1..], key);
      assert r.Some? ==> exists i :: 0 <= i < |members| && members[i] == Member(key, r.value) by {
        if r.Some? {
          var i :| 0 <= i < |members[1..]| && members[1..][i] == Member(key, r.value);
          assert members[i + 1] == Member(key, r.value);
        }
      }
      r
  }

  /** How deeply arrays and objects are nested. */
  function Nesting(value: Json): nat
    decreases value
  {
    match value
    case Array(items) => 1 + DeepestItem(items)
    case Object(members) => 1 + DeepestMember(members)
    case _ => 0
  }

  function DeepestItem(items: seq<Json>): nat
    decreases items
  {
    if items == [] then 0 else Max(Nesting(items[0]), DeepestItem(items[1..]))
  }

  function DeepestMember(members: seq<Member>): nat
    decreases members
  {
    if members == [] then 0 else Max(Nesting(members[0].value), DeepestMember(members[1..]))
  }

  lemma {:induction false} ItemsNestAtMost(items: seq<Json>, depth: nat)
    requires forall i :: 0 <= i < |items| ==> Nesting(items[i]) <= depth
    ensures Nesting(Array(items)) <= depth + 1 && DeepestItem(items) <= depth
  {
    if items != [] {
      ItemsNestAtMost(items[1..], depth);
    }
  }

  lemma {:induction false} MembersNestAtMost(members: seq<Member>, depth: nat)
    requires forall i :: 0 <= i < |members| ==> Nesting(members[i].value) <= depth
    ensures Nesting(Object(members)) <= depth + 1 && DeepestMember(members) <= depth
  {
    if members != [] {
      MembersNestAtMost(members[1..], depth);
    }
  }

  /** Rust's `char::is_whitespace` (the Unicode White_Space property). */
  predicate IsWhitespace(c: char) {
    var n := c as int;
    || 0x9 <= n <= 0xD || n == 0x20 || n == 0x85 || n == 0xA0 || n == 0x1680
    || 0x2000 <= n <= 0x200A || n == 0x2028 || n == 0x2029 || n == 0x202F || n == 0x205F || n == 0x3000
  }

  /** `text.trim().is_empty()`. */
  predicate Blank(text: string) {
    forall i :: 0 <= i < |text| ==> IsWhitespace(text[i])
  }
}
