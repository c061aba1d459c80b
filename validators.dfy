/** middlewares/validators.js: the collector that turns validation failures into one
    flash message, and the number sanitiser. */
module Validators {
  import opened Prelude
  import opened Runtime

  const Separator := " · "

  function TotalLength(parts: seq<string>): nat {
    if parts == [] then 0 else |parts[0]| + TotalLength(parts[1..])
  }

  /** `parts.join(sep)`. */
  function Join(parts: seq<string>, sep: string): (r: string)
    ensures parts == [] ==> r == ""
    ensures |parts| == 1 ==> r == parts[0]
    ensures parts != [] ==> |r| == TotalLength(parts) + (|parts| - 1) * |sep|
  {
    if parts == [] then ""
    else if |parts| == 1 then parts[0]
    else parts[0] + sep + Join(parts[1..], sep)
  }

  /** Where the k-th part starts in `Join(parts, sep)`. */
  function Offset(parts: seq<string>, sep: string, k: nat): nat
    requires k <= |parts|
  {
    if k == 0 then 0 else |parts[0]| + |sep| + Offset(parts[1..], sep, k - 1)
  }

  /** A slice of the second half of a concatenation is a slice of that half. */
  lemma SliceAfter(a: string, b: string, i: nat, k: nat)
    requires i <= k <= |b|
    ensures (a + b)[|a| + i..|a| + k] == b[i..k]
  {
  }

  /** The joined message holds every part at its offset, in order. */
  lemma {:induction false} JoinHoldsPartsInOrder(parts: seq<string>, sep: string, k: nat)
    requires k < |parts|
    ensures Offset(parts, sep, k) + |parts[k]| <= |Join(parts, sep)|
    ensures Join(parts, sep)[Offset(parts, sep, k)..Offset(parts, sep, k) + |parts[k]|] == parts[k]
  {
    if |parts| > 1 {
      var head := parts[0] + sep;
      var tail := Join(parts[1..], sep);
      assert Join(parts, sep) == head + tail;
      if k == 0 {
        assert (head + tail)[..|parts[0]|] == parts[0];
      } else {
        JoinHoldsPartsInOrder(parts[1..], sep, k - 1);
        assert parts[1..][k - 1] == parts[k];
        var o := Offset(parts[1..], sep, k - 1);
        SliceAfter(head, tail, o, o + |parts[k]|);
      }
    }
  }

  /** Consecutive parts are separated by exactly one separator. */
  lemma {:induction false} JoinSeparatesParts(parts: seq<string>, sep: string, k: nat)
    requires k + 1 < |parts|
    ensures Offset(parts, sep, k + 1) == Offset(parts, sep, k) + |parts[k]| + |sep|
    ensures Offset(parts, sep, k + 1) <= |Join(parts, sep)|
    ensures Join(parts, sep)[Offset(parts, sep, k) + |parts[k]|..Offset(parts, sep, k + 1)] == sep
  {
    var head := parts[0] + sep;
    var tail := Join(parts[1..], sep);
    assert Join(parts, sep) == head + tail;
    if k == 0 {
      assert (head + tail)[|parts[0]|..|head|] == sep;
      JoinHoldsPartsInOrder(parts, sep, 1);
    } else {
      JoinSeparatesParts(parts[1..], sep, k - 1);
      assert parts[1..][k - 1] == parts[k];
      var o := Offset(parts[1..], sep, k - 1);
      SliceAfter(head, tail, o + |parts[k]|, Offset(parts[1..], sep, k));
    }
  }

  /** handleErrors(viewPath): with no failures, `next()` and the session is untouched;
      otherwise every message, in order, joined by ' · ' becomes the error flash, and the
      view is rendered with the remembered input (or `{}`), or the request goes 'back'. */
  method HandleErrors(s: Session, messages: seq<string>, viewPath: Option<string>,
                      localsForView: Option<ViewData>) returns (r: Response)
    modifies s
    ensures messages == [] ==> r == Next && s.Data() == old(s.Data())
    ensures messages != [] ==> s.Data() == old(s.Data()).(error := Some(Join(messages, Separator)))
    ensures messages != [] && Truthy(viewPath) ==>
      r == Render(viewPath.value, if localsForView.Some? then localsForView.value else NoData)
    ensures messages != [] && !Truthy(viewPath) ==> r == Redirect("back")
  {
    if messages == [] {
      return Next;
    }
    s.error := Some(Join(messages, Separator));
    if Truthy(viewPath) {
      return Render(viewPath.value, if localsForView.Some? then localsForView.value else NoData);
    }
    return Redirect("back");
  }

  /** A JavaScript number: a finite value (integers only here) or NaN/±Infinity. */
  datatype JsNumber = Finite(value: int) | NonFinite

  /** The values a request body field can hold. */
  datatype JsValue = Undefined | Null | Text(s: string) | Number(n: JsNumber)

  /** `Number(v)`; the conversion of strings is the parameter `parse`. */
  function ToNumber(v: JsValue, parse: string -> JsNumber): JsNumber {
    match v
    case Undefined => NonFinite
    case Null => Finite(0)
    case Text(s) => parse(s)
    case Number(n) => n
  }

  predicate Blank(v: JsValue) {
    v.Undefined? || v.Null? || v == Text("")
  }

  /** sanitizeNumber(v): undefined, null and '' give null; otherwise `Number(v)` when it
      is finite and null when it is not, so no non-finite value ever comes out. */
  function SanitizeNumber(v: JsValue, parse: string -> JsNumber): (r: Option<int>)
    ensures Blank(v) ==> r == None
    ensures !Blank(v) ==> (r.Some? <==> ToNumber(v, parse).Finite?)
    ensures r.Some? ==> ToNumber(v, parse) == Finite(r.value)
  {
    if Blank(v) then None
    else
      var n := ToNumber(v, parse);
      if n.Finite? then Some(n.value) else None
  }
}
