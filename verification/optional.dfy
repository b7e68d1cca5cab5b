/** Optional arguments as the calculator receives them: a keyword argument that
    is either omitted (`None`) or a number, together with Python's truthiness
    rule, under which an omitted argument and a literal zero both read as
    "not given". */
module Optional {

  /** An argument that may be omitted. */
  datatype Option<+T> = None | Some(value: T)

  /** Python truthiness of an optional number: `None` and `0` are falsy,
      every other number is truthy. */
  predicate Truthy(o: Option<real>) {
    o.Some? && o.value != 0.0
  }

  /** How many of three optional numbers are truthy. */
  function TruthyCount(a: Option<real>, b: Option<real>, c: Option<real>): (n: nat)
    ensures n <= 3
    ensures n == 0 <==> !Truthy(a) && !Truthy(b) && !Truthy(c)
    ensures n == 3 <==> Truthy(a) && Truthy(b) && Truthy(c)
  {
    (if Truthy(a) then 1 else 0) + (if Truthy(b) then 1 else 0) + (if Truthy(c) then 1 else 0)
  }
}
