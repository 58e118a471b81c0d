// Shared value types: optional values, results carrying an error, and the
// error categories that flow operations report to their callers.

module Wrappers {
  datatype Option<T> = None | Some(value: T)

  datatype Result<T, E> = Ok(value: T) | Err(error: E)
  {
    predicate IsFailure() { Err? }
  }
}

module ErrorTypes {
  /** The error categories of the messaging layer that the modelled code raises. */
  datatype ErrorType =
    | NOT_FOUND
    | ALREADY_EXISTS
    | DATA_INVALID
    | REQUEST_INVALID
    | PARAMETERS_INVALID
    | NOT_PERMITTED
    | INTERNAL_ERROR
    | UNPROCESSABLE_REQUEST

  /** An exception raised by a flow operation: its category and its message. */
  datatype Failure = Failure(errorType: ErrorType, description: string)
}

module FlowModel {
  import opened Wrappers

  /** Status of a flow, a Y-flow or an HA-flow as stored in the repository. */
  datatype FlowStatus = UP | DOWN | DEGRADED | IN_PROGRESS

  /** Status of a single (HA) path or sub-path. */
  datatype FlowPathStatus = ACTIVE | INACTIVE | IN_PROGRESS | DEGRADED

  /** How a flow's packets are encapsulated across transit switches. */
  datatype FlowEncapsulationType = TRANSIT_VLAN | VXLAN

  /**
   * One record of an operation's history log: an action or an error, with the
   * optional description the two-argument recording calls carry.
   */
  datatype HistoryRecord =
    | HistoryAction(action: string, description: Option<string>)
    | HistoryError(action: string, description: Option<string>)
}

module Text {
  import opened Wrappers

  /** Decimal digits of a natural number, as Java's string formatting prints it. */
  function NatToString(n: nat): (s: string)
    ensures |s| >= 1
    ensures forall i :: 0 <= i < |s| ==> '0' <= s[i] <= '9'
    decreases n
  {
    if n < 10 then [Digit(n)] else NatToString(n / 10) + [Digit(n % 10)]
  }

  function Digit(d: nat): (c: char)
    requires d < 10
    ensures '0' <= c <= '9'
  {
    ['0', '1', '2', '3', '4', '5', '6', '7', '8', '9'][d]
  }

  /**
   * The characters Character.isWhitespace accepts: the ASCII controls it names and
   * the space, line and paragraph separators other than the no-break spaces
   * U+00A0, U+2007 and U+202F.
   */
  predicate IsWhitespace(c: char) {
    || c == ' ' || '\t' <= c <= '\r' || '\U{1C}' <= c <= '\U{1F}'
    || c == '\U{1680}' || '\U{2000}' <= c <= '\U{2006}' || '\U{2008}' <= c <= '\U{200A}'
    || c == '\U{2028}' || c == '\U{2029}' || c == '\U{205F}' || c == '\U{3000}'
  }

  /** Whether a string is absent, empty or only whitespace, as StringUtils.isBlank decides. */
  predicate IsBlank(s: Option<string>) {
    s.None? || forall i :: 0 <= i < |s.value| ==> IsWhitespace(s.value[i])
  }
}

module Enumeration {
  /** No element occurs twice. */
  ghost predicate Distinct<T>(s: seq<T>) {
    forall i, j :: 0 <= i < j < |s| ==> s[i] != s[j]
  }

  /**
   * The sequence lists every element of the set exactly once: the order in which
   * a hash-based collection happens to hand out its keys.
   */
  ghost predicate Enumerates<T(!new)>(order: seq<T>, keys: set<T>) {
    Distinct(order) && (forall x :: x in order <==> x in keys)
  }

  /** An enumeration of a set is as long as the set is large. */
  lemma {:induction false} EnumerationSize<T(!new)>(order: seq<T>, keys: set<T>)
    requires Enumerates(order, keys)
    ensures |order| == |keys|
    decreases |order|
  {
    if order != [] {
      var rest := order[1..];
      assert Enumerates(rest, keys - {order[0]}) by {
        forall x
          ensures x in rest <==> x in keys - {order[0]}
        {
          if x in rest {
            var j :| 0 <= j < |rest| && rest[j] == x;
            assert order[j + 1] == x;
          }
          if x in keys - {order[0]} {
            var j :| 0 <= j < |order| && order[j] == x;
            assert j != 0;
            assert rest[j - 1] == x;
          }
        }
      }
      EnumerationSize(rest, keys - {order[0]});
    } else {
      assert forall x :: x !in keys;
      assert keys == {};
    }
  }
}
