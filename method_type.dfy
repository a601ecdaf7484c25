/** The MethodType enum: nine HTTP methods, exact lookup by name and lookup ignoring case. */
module MethodTypes {
  import opened Wrappers
  import opened Exceptions

  datatype Method = GET | POST | HEAD | PUT | DELETE | CONNECT | OPTIONS | TRACE | PATCH

  /** Enum.name(), which is also toString() for this enum. */
  function Name(m: Method): string {
    match m
    case GET => "GET"
    case POST => "POST"
    case HEAD => "HEAD"
    case PUT => "PUT"
    case DELETE => "DELETE"
    case CONNECT => "CONNECT"
    case OPTIONS => "OPTIONS"
    case TRACE => "TRACE"
    case PATCH => "PATCH"
  }

  /** values(): the constants in declaration order. */
  const Values: seq<Method> := [GET, POST, HEAD, PUT, DELETE, CONNECT, OPTIONS, TRACE, PATCH]

  /** The declaration order of a constant (Enum.ordinal). */
  function Ordinal(m: Method): (i: nat)
    ensures i < |Values| && Values[i] == m
  {
    match m
    case GET => 0
    case POST => 1
    case HEAD => 2
    case PUT => 3
    case DELETE => 4
    case CONNECT => 5
    case OPTIONS => 6
    case TRACE => 7
    case PATCH => 8
  }

  /** Every constant occurs exactly once in values(), and no two constants share a name. */
  lemma ValuesAreTheConstants()
    ensures |Values| == 9
    ensures forall i, j :: 0 <= i < j < |Values| ==> Values[i] != Values[j] && Name(Values[i]) != Name(Values[j])
    ensures forall m :: m in Values
  {
    forall m ensures m in Values {
      assert Values[Ordinal(m)] == m;
    }
  }

  /**
   * The enum's valueOf(String): the constant whose name is exactly `name`, case included;
   * any other string throws.
   */
  function ValueOf(name: string): (r: Result<Method, Exception>)
    ensures forall m :: Name(m) == name ==> r == Success(m)
    ensures r.Success? ==> Name(r.value) == name
    ensures r.Failure? ==> r.error == NoEnumConstant(name)
  {
    if name == "GET" then Success(GET)
    else if name == "POST" then Success(POST)
    else if name == "HEAD" then Success(HEAD)
    else if name == "PUT" then Success(PUT)
    else if name == "DELETE" then Success(DELETE)
    else if name == "CONNECT" then Success(CONNECT)
    else if name == "OPTIONS" then Success(OPTIONS)
    else if name == "TRACE" then Success(TRACE)
    else if name == "PATCH" then Success(PATCH)
    else Failure(NoEnumConstant(name))
  }

  /** Character.toUpperCase, restricted to the ASCII letters. */
  function ToUpper(c: char): char {
    if 'a' <= c <= 'z' then (c as int - 32) as char else c
  }

  /** String.equalsIgnoreCase: equal lengths and equal characters after case folding. */
  predicate EqualsIgnoreCase(a: string, b: string) {
    |a| == |b| && forall i :: 0 <= i < |a| ==> ToUpper(a[i]) == ToUpper(b[i])
  }

  /** A constant's name matches `v` ignoring case exactly when `v` upper-cased is the name. */
  lemma MatchesIffUpperCase(m: Method, v: string)
    ensures EqualsIgnoreCase(Name(m), v) <==> |v| == |Name(m)| && forall i :: 0 <= i < |v| ==> ToUpper(v[i]) == Name(m)[i]
  {
    var n := Name(m);
    assert forall i :: 0 <= i < |n| ==> ToUpper(n[i]) == n[i];
  }

  /** At most one constant matches a given string ignoring case. */
  lemma {:induction false} AtMostOneMatch(a: Method, b: Method, v: string)
    requires EqualsIgnoreCase(Name(a), v) && EqualsIgnoreCase(Name(b), v)
    ensures a == b
  {
    MatchesIffUpperCase(a, v);
    MatchesIffUpperCase(b, v);
    assert Name(a) == Name(b) by {
      forall i | 0 <= i < |v| ensures Name(a)[i] == Name(b)[i] {
        assert ToUpper(v[i]) == Name(a)[i];
      }
    }
  }

  /**
   * MethodType.valueOfIgnoreCase: scans values() in declaration order and returns the first
   * constant whose name equals `value` ignoring case; if none does, throws with the message
   * "No constant with name <value> found".
   */
  method ValueOfIgnoreCase(value: string) returns (r: Result<Method, Exception>)
    ensures r.Success? ==> EqualsIgnoreCase(Name(r.value), value)
    ensures r.Success? ==> forall j :: 0 <= j < Ordinal(r.value) ==> !EqualsIgnoreCase(Name(Values[j]), value)
    ensures forall m :: EqualsIgnoreCase(Name(m), value) ==> r == Success(m)
    ensures r.Failure? <==> forall m :: !EqualsIgnoreCase(Name(m), value)
    ensures r.Failure? ==> r.error == IllegalArgument("No constant with name " + value + " found")
  {
    for i := 0 to |Values|
      invariant forall j :: 0 <= j < i ==> !EqualsIgnoreCase(Name(Values[j]), value)
    {
      if EqualsIgnoreCase(Name(Values[i]), value) {
        forall m | EqualsIgnoreCase(Name(m), value) ensures m == Values[i] {
          AtMostOneMatch(m, Values[i], value);
        }
        return Success(Values[i]);
      }
    }
    forall m ensures !EqualsIgnoreCase(Name(m), value) {
      assert Values[Ordinal(m)] == m;
    }
    return Failure(IllegalArgument("No constant with name " + value + " found"));
  }

  /** Case variants of a name find its constant: "get" is GET, "Patch" is PATCH. */
  method CaseVariantsFindTheirConstant() returns (lower: Result<Method, Exception>, mixed: Result<Method, Exception>)
    ensures lower == Success(GET) && mixed == Success(PATCH)
  {
    lower := ValueOfIgnoreCase("get");
    assert EqualsIgnoreCase(Name(GET), "get");
    mixed := ValueOfIgnoreCase("Patch");
    assert EqualsIgnoreCase(Name(PATCH), "Patch");
  }

  /** Round trip: looking up a constant's own name, ignoring case or not, gives that constant. */
  method NameRoundTrip(m: Method) returns (r: Result<Method, Exception>)
    ensures r == Success(m) && ValueOf(Name(m)) == Success(m)
  {
    r := ValueOfIgnoreCase(Name(m));
    assert EqualsIgnoreCase(Name(m), Name(m));
  }
}
