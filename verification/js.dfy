/** JavaScript values as the orchestrator sees them after `JSON.parse`: a
    field is either a string or `undefined`, and a parsed object body is a
    finite map from property names to values. */
module Js {

  datatype Option<+T> = None | Some(value: T)

  /** A string-or-undefined value read from a body or a message attribute. */
  type JsStr = Option<string>

  /** Interpolation into a template literal: `undefined` prints as the word itself. */
  function Render(v: JsStr): string {
    match v
    case Some(s) => s
    case None => "undefined"
  }

  /** A parsed JSON object. Numeric fields (chat and update ids) are carried as their text. */
  type Body = map<string, string>

  /** Destructuring one property of a parsed body; a missing property is `undefined`. */
  function Field(b: Body, k: string): JsStr {
    if k in b then Some(b[k]) else None
  }

  /** No property name occurs twice in an object literal. */
  predicate DistinctKeys(fields: seq<(string, JsStr)>) {
    forall i, j | 0 <= i < j < |fields| :: fields[i].0 != fields[j].0
  }

  /** What `JSON.parse(JSON.stringify({k1: v1, ...}))` yields for an object
      literal: properties whose value is `undefined` are dropped. */
  function ObjectBody(fields: seq<(string, JsStr)>): Body {
    if |fields| == 0 then map[]
    else
      var rest := ObjectBody(fields[1..]);
      match fields[0].1
      case Some(s) => rest[fields[0].0 := s]
      case None => rest
  }

  /** Reading back any property of a serialised object literal returns the
      value it was written with; a name that was not written reads as `undefined`. */
  lemma {:induction false} ObjectBodyField(fields: seq<(string, JsStr)>, k: string)
    requires DistinctKeys(fields)
    ensures forall i | 0 <= i < |fields| && fields[i].0 == k :: Field(ObjectBody(fields), k) == fields[i].1
    ensures (forall i | 0 <= i < |fields| :: fields[i].0 != k) ==> Field(ObjectBody(fields), k) == None
  {
    if |fields| > 0 {
      var tail := fields[1..];
      assert DistinctKeys(tail) by {
        forall i, j | 0 <= i < j < |tail| ensures tail[i].0 != tail[j].0 {
          assert tail[i] == fields[i + 1] && tail[j] == fields[j + 1];
        }
      }
      ObjectBodyField(tail, k);
      if fields[0].0 == k {
        assert forall i | 0 <= i < |tail| :: tail[i].0 != k by {
          forall i | 0 <= i < |tail| ensures tail[i].0 != k {
            assert tail[i] == fields[i + 1];
          }
        }
      } else {
        forall i | 0 <= i < |fields| && fields[i].0 == k
          ensures Field(ObjectBody(fields), k) == fields[i].1
        {
          assert fields[i] == tail[i - 1];
        }
      }
    }
  }

  /** The `i`-th property of a serialised object literal reads back as written. */
  lemma ObjectBodyAt(fields: seq<(string, JsStr)>, i: nat)
    requires DistinctKeys(fields) && i < |fields|
    ensures Field(ObjectBody(fields), fields[i].0) == fields[i].1
  {
    ObjectBodyField(fields, fields[i].0);
  }
}
