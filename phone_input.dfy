/**
 * The Azerbaijani phone field (frontend/src/components/common/PhoneInput.jsx):
 * a stored value is split into a mobile operator code and a subscriber
 * number, typed numbers are cleaned, the field emits "+994" followed by the
 * operator without its leading 0 and the number, and the number is shown
 * grouped 3-2-2.
 */
module PhoneInput {
  import opened Common

  /** The operator codes in the order the component lists them. */
  const Operators: seq<string> := ["050", "051", "055", "070", "077", "099", "010", "060", "012"]

  const DefaultOperator := "050"

  lemma OperatorsShape()
    ensures forall k :: 0 <= k < |Operators| ==> |Operators[k]| == 3 && Operators[k][0] == '0' && AllDigits(Operators[k])
  {
  }

  /** JavaScript's `s.substring(i)`: empty when `i` is past the end. */
  function From(s: string, i: nat): (r: string)
    ensures i <= |s| ==> r == s[i..]
    ensures i > |s| ==> r == ""
  {
    if i <= |s| then s[i..] else ""
  }

  /** JavaScript's `s.substring(i, j)` for `i <= j`: clamped to the string. */
  function Slice(s: string, i: nat, j: nat): (r: string)
    requires i <= j
    ensures |s| <= i ==> r == ""
    ensures i < |s| ==> r == s[i..if j <= |s| then j else |s|]
  {
    if |s| <= i then "" else s[i..if j <= |s| then j else |s|]
  }

  /** The position of the first code in `ops` that prefixes `clean`, or `|ops|` when none does. */
  function FirstPrefixing(clean: string, ops: seq<string>): (k: nat)
    ensures k <= |ops|
    ensures k < |ops| ==> StartsWith(clean, ops[k])
    ensures forall j :: 0 <= j < k ==> !StartsWith(clean, ops[j])
  {
    if |ops| == 0 then 0
    else if StartsWith(clean, ops[0]) then 0
    else 1 + FirstPrefixing(clean, ops[1..])
  }

  /** `OPERATORS.find(o => clean.startsWith(o.code))?.code || '050'`. */
  function FindOperator(clean: string, ops: seq<string>): (op: string)
    ensures (exists j :: 0 <= j < |ops| && StartsWith(clean, ops[j])) ==> op in ops && StartsWith(clean, op)
    ensures (forall j :: 0 <= j < |ops| ==> !StartsWith(clean, ops[j])) ==> op == DefaultOperator
  {
    var k := FirstPrefixing(clean, ops);
    if k < |ops| then ops[k] else DefaultOperator
  }

  /** The cleaned national form: digits only, 994 turned into a leading 0, a missing 0 added. */
  function Clean(val: string): (c: string)
    ensures AllDigits(c) && |c| > 0 && c[0] == '0'
  {
    var d := DigitsOnly(val);
    if StartsWith(d, "994") then "0" + d[3..]
    else if !StartsWith(d, "0") then "0" + d
    else d
  }

  /** `parseInitialValue`: operator and number of a stored value; empty gives 050 and no number. */
  function Parse(val: string): (r: (string, string))
    ensures val == "" ==> r == (DefaultOperator, "")
    ensures val != "" ==> r.0 == FindOperator(Clean(val), Operators) && r.1 == From(Clean(val), |r.0|)
    ensures AllDigits(r.1)
  {
    if val == "" then (DefaultOperator, "")
    else
      var clean := Clean(val);
      var op := FindOperator(clean, Operators);
      (op, From(clean, |op|))
  }

  /** `handleNumberChange`'s cleaning: digits only, at most seven. */
  function TypedNumber(raw: string): (n: string)
    ensures AllDigits(n) && |n| <= 7
    ensures |DigitsOnly(raw)| <= 7 ==> n == DigitsOnly(raw)
    ensures |DigitsOnly(raw)| > 7 ==> n == DigitsOnly(raw)[..7]
  {
    var d := DigitsOnly(raw);
    if |d| <= 7 then d else d[..7]
  }

  /** The value the field emits: "+994", the operator without its leading 0, then the number. */
  function Emit(op: string, number: string): (v: string)
    ensures |op| >= 1 ==> v == "+994" + op[1..] + number
  {
    "+994" + From(op, 1) + number
  }

  /** `handleNumberChange`: the new state and the emitted value, with the current operator. */
  function NumberChange(state: (string, string), raw: string): (r: ((string, string), string))
    ensures r.0 == (state.0, TypedNumber(raw)) && r.1 == Emit(state.0, TypedNumber(raw))
  {
    ((state.0, TypedNumber(raw)), Emit(state.0, TypedNumber(raw)))
  }

  /** `handleOperatorSelect`: the new state and the emitted value, keeping the number. */
  function OperatorSelect(state: (string, string), op: string): (r: ((string, string), string))
    ensures r.0 == (op, state.1) && r.1 == Emit(op, state.1)
  {
    ((op, state.1), Emit(op, state.1))
  }

  /** The digits of an emitted value: 994, the operator's last two digits, the number. */
  lemma EmittedDigits(op: string, number: string)
    requires op in Operators && AllDigits(number)
    ensures DigitsOnly(Emit(op, number)) == "994" + op[1..] + number
  {
    OperatorsShape();
    var rest := "994" + op[1..] + number;
    assert Emit(op, number) == "+" + rest;
    DigitsOnlyAppend("+", rest);
    assert AllDigits(rest);
    DigitsOnlyOfDigits(rest);
  }

  /** Cleaning an emitted value restores the national form: operator then number. */
  lemma CleanEmitted(op: string, number: string)
    requires op in Operators && AllDigits(number)
    ensures Clean(Emit(op, number)) == op + number
  {
    OperatorsShape();
    EmittedDigits(op, number);
    var d := "994" + op[1..] + number;
    assert d[..3] == "994";
    assert d[3..] == op[1..] + number;
    assert "0" + op[1..] == op;
  }

  /** A listed operator is the one operator found in a string that starts with it. */
  lemma FindListedOperator(op: string, rest: string)
    requires op in Operators
    ensures FindOperator(op + rest, Operators) == op
  {
    OperatorsShape();
    assert (op + rest)[..3] == op;
    var k := FirstPrefixing(op + rest, Operators);
    var i :| 0 <= i < |Operators| && Operators[i] == op;
    assert StartsWith(op + rest, Operators[i]);
    assert k < |Operators|;
    assert (op + rest)[..3] == Operators[k];
  }

  /** Emitting and parsing back gives the same operator and number. */
  lemma RoundTrip(op: string, number: string)
    requires op in Operators && AllDigits(number)
    ensures Parse(Emit(op, number)) == (op, number)
  {
    OperatorsShape();
    CleanEmitted(op, number);
    FindListedOperator(op, number);
    assert (op + number)[3..] == number;
  }

  /** `formatDisplay`: the number grouped 3-2-2 with spaces. */
  function FormatDisplay(num: string): (f: string)
    ensures |num| <= 3 ==> f == num
    ensures 3 < |num| <= 5 ==> f == num[..3] + " " + num[3..]
    ensures 5 < |num| ==> f == num[..3] + " " + num[3..5] + " " + num[5..if |num| < 7 then |num| else 7]
  {
    if num == "" then ""
    else
      Slice(num, 0, 3) + (if |num| > 3 then " " + Slice(num, 3, 5) else "")
                       + (if |num| > 5 then " " + Slice(num, 5, 7) else "")
  }

  function RemoveSpaces(s: string): (r: string)
    ensures ' ' !in r
  {
    if |s| == 0 then "" else (if s[0] == ' ' then "" else [s[0]]) + RemoveSpaces(s[1..])
  }

  lemma {:induction false} RemoveSpacesAppend(a: string, b: string)
    ensures RemoveSpaces(a + b) == RemoveSpaces(a) + RemoveSpaces(b)
  {
    if |a| > 0 {
      assert (a + b)[1..] == a[1..] + b;
      RemoveSpacesAppend(a[1..], b);
    } else {
      assert a + b == b;
    }
  }

  lemma {:induction false} RemoveSpacesOfDigits(s: string)
    requires AllDigits(s)
    ensures RemoveSpaces(s) == s
  {
    if |s| > 0 {
      RemoveSpacesOfDigits(s[1..]);
    }
  }

  /** Deleting the spaces around one inserted space. */
  lemma RemoveSpaceBetween(x: string, y: string)
    ensures RemoveSpaces(x + " " + y) == RemoveSpaces(x) + RemoveSpaces(y)
  {
    assert RemoveSpaces(" ") == "" by {
      assert " "[1..] == "";
    }
    RemoveSpacesAppend(x + " ", y);
    RemoveSpacesAppend(x, " ");
    assert RemoveSpaces(x) + "" == RemoveSpaces(x);
  }


  /** Deleting the spaces of the display gives the number back, for up to seven digits. */
  lemma FormatDisplayRoundTrip(num: string)
    requires AllDigits(num) && |num| <= 7
    ensures RemoveSpaces(FormatDisplay(num)) == num
  {
    if num != "" {
      if |num| <= 3 {
        RemoveSpacesOfDigits(num);
      } else if |num| <= 5 {
        var a, b := num[..3], num[3..];
        DigitsSlice(num, 0, 3);
        DigitsSlice(num, 3, |num|);
        RemoveSpaceBetween(a, b);
        RemoveSpacesOfDigits(a);
        RemoveSpacesOfDigits(b);
        assert a + b == num;
      } else {
        var a, b, c := num[..3], num[3..5], num[5..];
        DigitsSlice(num, 0, 3);
        DigitsSlice(num, 3, 5);
        DigitsSlice(num, 5, |num|);
        RemoveTwoSpaces(a, b, c);
        assert FormatDisplay(num) == a + " " + b + " " + c;
        assert a + b + c == num;
      }
    }
  }

  lemma DigitsSlice(s: string, i: nat, j: nat)
    requires AllDigits(s) && i <= j <= |s|
    ensures AllDigits(s[i..j])
  {
    assert forall k :: 0 <= k < j - i ==> s[i..j][k] == s[i + k];
  }

  lemma RemoveTwoSpaces(a: string, b: string, c: string)
    requires AllDigits(a) && AllDigits(b) && AllDigits(c)
    ensures RemoveSpaces(a + " " + b + " " + c) == a + b + c
  {
    RemoveSpaceBetween(a + " " + b, c);
    RemoveSpaceBetween(a, b);
    RemoveSpacesOfDigits(a);
    RemoveSpacesOfDigits(b);
    RemoveSpacesOfDigits(c);
  }


  /** A full seven-digit number is shown as XXX XX XX. */
  lemma FullNumberLayout(num: string)
    requires |num| == 7
    ensures FormatDisplay(num) == num[..3] + " " + num[3..5] + " " + num[5..]
  {
  }
}
