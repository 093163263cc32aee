/**
 * The alert record handed from the state analyzer to the alert manager.
 * In the program it is a dictionary with the keys 'type', 'message' and
 * 'severity'; any key may be missing, so each field is optional.
 */
module Alerts {
  import opened Wrappers

  datatype Alert = Alert(kind: Option<string>, message: Option<string>, severity: Option<string>)

  /** An alert dictionary with all three keys present. */
  function MakeAlert(kind: string, message: string, severity: string): Alert {
    Alert(Some(kind), Some(message), Some(severity))
  }

  /** `any(a['type'] == kind for a in alerts)`. */
  predicate HasKind(alerts: seq<Alert>, kind: string) {
    exists i :: 0 <= i < |alerts| && alerts[i].kind == Some(kind)
  }

  /** How many alerts of the list carry the type `kind`. */
  function CountKind(alerts: seq<Alert>, kind: string): (n: nat)
    ensures n <= |alerts|
    ensures n == 0 <==> !HasKind(alerts, kind)
  {
    if alerts == [] then 0
    else
      var rest := CountKind(alerts[1..], kind);
      assert HasKind(alerts, kind) <==> alerts[0].kind == Some(kind) || HasKind(alerts[1..], kind) by {
        if HasKind(alerts[1..], kind) {
          var i :| 0 <= i < |alerts[1..]| && alerts[1..][i].kind == Some(kind);
          assert alerts[i + 1].kind == Some(kind);
        }
        if HasKind(alerts, kind) && alerts[0].kind != Some(kind) {
          var i :| 0 <= i < |alerts| && alerts[i].kind == Some(kind);
          assert alerts[1..][i - 1].kind == Some(kind);
        }
      }
      (if alerts[0].kind == Some(kind) then 1 else 0) + rest
  }

  /** Counting distributes over concatenation. */
  lemma {:induction false} CountKindAppend(a: seq<Alert>, b: seq<Alert>, kind: string)
    ensures CountKind(a + b, kind) == CountKind(a, kind) + CountKind(b, kind)
    decreases |a|
  {
    if a == [] {
      assert a + b == b;
    } else {
      CountKindAppend(a[1..], b, kind);
      assert (a + b)[1..] == a[1..] + b;
    }
  }
}
