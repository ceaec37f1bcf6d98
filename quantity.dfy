/** The quantity editor shown on a long press. Its state is the text of the
    quantity field; the buttons and the save action read it with
    `parseInt(text) || 0`. */
module Quantity {
  import opened Wrappers

  /** The largest quantity the editor lets through. */
  const MaxQuantity := 100

  predicate IsDigit(c: char)
  {
    '0' <= c <= '9'
  }

  predicate AllDigits(s: string)
  {
    forall i :: 0 <= i < |s| ==> IsDigit(s[i])
  }

  /** `parseInt(s) || 0` on a string of digits: its decimal value, and 0 for
      the empty string (whose parse is NaN). */
  function Parse(s: string): nat
    requires AllDigits(s)
  {
    if s == [] then 0 else Parse(s[..|s| - 1]) * 10 + (s[|s| - 1] as int - '0' as int)
  }

  function DigitChar(d: nat): char
    requires d < 10
  {
    ('0' as int + d) as char
  }

  /** `String(n)`: the decimal numeral of `n`, without leading zeros. */
  function Show(n: nat): (s: string)
    ensures |s| >= 1 && AllDigits(s)
    ensures Parse(s) == n
    ensures s[0] == '0' ==> n == 0
  {
    if n < 10 then [DigitChar(n)]
    else
      var s := Show(n / 10) + [DigitChar(n % 10)];
      assert s[..|s| - 1] == Show(n / 10);
      s
  }

  /** The field's change filter: only digit strings whose value is at most 100 are taken. */
  predicate Accepts(text: string)
  {
    AllDigits(text) && Parse(text) <= MaxQuantity
  }

  /** `handleIncrement` on the field's text. */
  function Incremented(text: string): (r: string)
    requires AllDigits(text)
    ensures AllDigits(r)
    ensures Parse(text) < MaxQuantity ==> Parse(r) == Parse(text) + 1
    ensures Parse(text) >= MaxQuantity ==> r == text
  {
    var current := Parse(text);
    if current < MaxQuantity then Show(current + 1) else text
  }

  /** `handleDecrement` on the field's text. */
  function Decremented(text: string): (r: string)
    requires AllDigits(text)
    ensures AllDigits(r)
    ensures Parse(text) > 1 ==> Parse(r) == Parse(text) - 1
    ensures Parse(text) <= 1 ==> r == text
  {
    var current := Parse(text);
    if current > 1 then Show(current - 1) else text
  }

  /** `handleSave`: the quantity handed on, or none when it is outside 1..100. */
  function Saved(text: string): (r: Option<nat>)
    requires AllDigits(text)
    ensures r.Some? <==> 1 <= Parse(text) <= MaxQuantity
    ensures r.Some? ==> r.value == Parse(text)
  {
    var q := Parse(text);
    if q > 0 && q <= MaxQuantity then Some(q) else None
  }

  /** Starting from a quantity in 1..100, any run of presses on the two buttons
      stays in 1..100. */
  lemma {:induction false} ButtonsStayInRange(text: string, presses: seq<bool>)
    requires AllDigits(text) && 1 <= Parse(text) <= MaxQuantity
    ensures AllDigits(Press(text, presses)) && 1 <= Parse(Press(text, presses)) <= MaxQuantity
    decreases |presses|
  {
    if presses != [] {
      var next := if presses[0] then Incremented(text) else Decremented(text);
      ButtonsStayInRange(next, presses[1..]);
    }
  }

  /** The text after a run of presses; `true` is the plus button, `false` the minus button. */
  function Press(text: string, presses: seq<bool>): string
    requires AllDigits(text)
    decreases |presses|
  {
    if presses == [] then text
    else Press(if presses[0] then Incremented(text) else Decremented(text), presses[1..])
  }

  /** Whatever reaches the field stays a digit string worth at most 100. */
  lemma EditorStaysBounded(text: string, input: string)
    requires Accepts(text)
    ensures Accepts(Incremented(text)) && Accepts(Decremented(text))
    ensures Accepts(if Accepts(input) then input else text)
  {
  }

  /** The quantity editor. It stays mounted while the home screen is shown, so
      its field is not reset when it is opened: the field takes the numeral of
      the current quantity only when that quantity differs from the one it
      last saw. */
  class QuantityEditor {
    var text: string
    var shown: nat

    ghost predicate Valid()
      reads this
    {
      Accepts(text)
    }

    /** Mounting: the field starts as the numeral of the current quantity. */
    constructor (currentQuantity: nat)
      requires currentQuantity <= MaxQuantity
      ensures Valid() && text == Show(currentQuantity) && shown == currentQuantity
    {
      text := Show(currentQuantity);
      shown := currentQuantity;
    }

    /** A render with the quantity the home screen passes: the field is reset
        to its numeral only if it differs from the last one seen, and keeps
        whatever was typed otherwise. */
    method Rerender(currentQuantity: nat)
      requires Valid() && currentQuantity <= MaxQuantity
      modifies this
      ensures Valid() && shown == currentQuantity
      ensures currentQuantity != old(shown) ==> text == Show(currentQuantity)
      ensures currentQuantity == old(shown) ==> text == old(text)
    {
      if currentQuantity != shown {
        text := Show(currentQuantity);
        shown := currentQuantity;
      }
    }

    method Increment()
      requires Valid()
      modifies this
      ensures Valid() && text == Incremented(old(text)) && shown == old(shown)
    {
      var current := Parse(text);
      if current < MaxQuantity {
        text := Show(current + 1);
      }
    }

    method Decrement()
      requires Valid()
      modifies this
      ensures Valid() && text == Decremented(old(text)) && shown == old(shown)
    {
      var current := Parse(text);
      if current > 1 {
        text := Show(current - 1);
      }
    }

    /** `onChangeText`: the typed text replaces the field only if the filter takes it. */
    method ChangeText(input: string)
      requires Valid()
      modifies this
      ensures Valid()
      ensures text == if Accepts(input) then input else old(text)
      ensures shown == old(shown)
    {
      if AllDigits(input) && Parse(input) <= MaxQuantity {
        text := input;
      }
    }

    /** `handleSave`: the quantity to store, or none when an alert is shown instead. */
    method Save() returns (q: Option<nat>)
      requires Valid()
      ensures q == Saved(text)
    {
      var quantity := Parse(text);
      if quantity > 0 && quantity <= MaxQuantity {
        q := Some(quantity);
      } else {
        q := None;
      }
    }
  }

  /** Opening the editor on an unselected item, typing 50 and cancelling, then
      opening it on another unselected item: the current quantity is 1 both
      times, so the field still holds "50" and saving hands on 50. */
  method ReopenKeepsTypedText()
  {
    var editor := new QuantityEditor(1);
    editor.Rerender(1);
    assert Parse("50") == 50 by { assert "50"[..1] == "5"; }
    editor.ChangeText("50");
    editor.Rerender(1);
    var q := editor.Save();
    assert q == Some(50);
  }
}
