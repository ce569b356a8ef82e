/**
 * Shared vocabulary of the bot model: optional values, the synthetic-input
 * device (HID) as an append-only trace, skills and key bindings, Go's "%d"
 * formatting and Go's strings.Fields.
 */
module Common {

  datatype Option<T> = None | Some(value: T)

  /** Mouse buttons the bot clicks with. */
  datatype Button = LeftButton | RightButton

  /**
   * A key the HID presses. `Ascii(s)` is the code HID.GetASCIICode(s) returns
   * for the one-character key name `s`; the code table itself is not modelled.
   */
  datatype Key = Ascii(name: string) | Escape | Backspace | Enter

  /** A key binding read from the game's settings (its key codes). */
  datatype KeyBinding = KeyBinding(keys: seq<int>)

  /** One primitive the input device executes against the game window. */
  datatype InputEvent =
    | PressKey(key: Key)
    | Click(button: Button, x: int, y: int)
    | PressKeyBinding(binding: KeyBinding)

  /** The supervisor states the server code tests for; any other state is kept by name. */
  datatype SupervisorStatus = Starting | InGame | Paused | OtherStatus(name: string)

  /** The state the supervisor manager reports for `sup`; unknown ones report no state. */
  function StatusOf(statuses: map<string, SupervisorStatus>, sup: string): SupervisorStatus {
    if sup in statuses then statuses[sup] else OtherStatus("")
  }

  /** The skills the leveling and step code mention by name. */
  datatype Skill =
    | AttackSkill
    | TomeOfTownPortal
    | Might
    | HolyFire
    | Zeal
    | Vigor
    | Concentration
    | BlessedHammer
    | HolyShield
    | OtherSkill(id: int)

  /** The input device: everything it was asked to do, in order. */
  class Hid {
    var trace: seq<InputEvent>

    constructor ()
      ensures trace == []
    {
      trace := [];
    }

    method PressKey(k: Key)
      modifies this
      ensures trace == old(trace) + [InputEvent.PressKey(k)]
    {
      trace := trace + [InputEvent.PressKey(k)];
    }

    method Click(b: Button, x: int, y: int)
      modifies this
      ensures trace == old(trace) + [InputEvent.Click(b, x, y)]
    {
      trace := trace + [InputEvent.Click(b, x, y)];
    }
  }

  /** The key presses that type `s`, one per character (GetASCIICode of "%c"). */
  function TypeKeys(s: string): (r: seq<InputEvent>)
    ensures |r| == |s|
  {
    if s == [] then [] else [PressKey(Ascii([s[0]]))] + TypeKeys(s[1..])
  }

  /** The i-th key press types the i-th character. */
  lemma {:induction false} TypeKeysAt(s: string, i: nat)
    requires i < |s|
    ensures TypeKeys(s)[i] == PressKey(Ascii([s[i]]))
  {
    if i > 0 {
      TypeKeysAt(s[1..], i - 1);
    }
  }

  lemma {:induction false} TypeKeysAppend(a: string, b: string)
    ensures TypeKeys(a + b) == TypeKeys(a) + TypeKeys(b)
  {
    if a == [] {
      assert a + b == b;
    } else {
      assert (a + b)[1..] == a[1..] + b;
      TypeKeysAppend(a[1..], b);
      AppendAssoc([PressKey(Ascii([a[0]]))], TypeKeys(a[1..]), TypeKeys(b));
    }
  }

  lemma AppendAssoc<T>(a: seq<T>, b: seq<T>, c: seq<T>)
    ensures a + b + c == a + (b + c)
  {
  }

  /** How many times the trace presses key `k`. */
  function CountPresses(t: seq<InputEvent>, k: Key): nat {
    if t == [] then 0 else CountPresses(t[..|t| - 1], k) + (if t[|t| - 1] == PressKey(k) then 1 else 0)
  }

  lemma {:induction false} CountPressesAppend(a: seq<InputEvent>, b: seq<InputEvent>, k: Key)
    ensures CountPresses(a + b, k) == CountPresses(a, k) + CountPresses(b, k)
    decreases |b|
  {
    if b == [] {
      assert a + b == a;
    } else {
      assert (a + b)[..|a + b| - 1] == a + b[..|b| - 1];
      CountPressesAppend(a, b[..|b| - 1], k);
    }
  }

  /** `n` presses of the backspace key. */
  function Backspaces(n: nat): (r: seq<InputEvent>)
    ensures |r| == n
  {
    if n == 0 then [] else Backspaces(n - 1) + [PressKey(Backspace)]
  }

  lemma {:induction false} BackspacesCount(n: nat, k: Key)
    ensures CountPresses(Backspaces(n), k) == if k == Backspace then n else 0
  {
    if n > 0 {
      BackspacesCount(n - 1, k);
      assert Backspaces(n)[..n - 1] == Backspaces(n - 1);
    }
  }

  /** Typing a text presses each key once per occurrence of its character. */
  lemma {:induction false} TypeKeysCount(s: string, k: Key)
    ensures CountPresses(TypeKeys(s), k) == if k.Ascii? && |k.name| == 1 then multiset(s)[k.name[0]] else 0
    decreases |s|
  {
    if s != [] {
      var n := |s| - 1;
      assert s == s[..n] + [s[n]];
      TypeKeysAppend(s[..n], [s[n]]);
      assert TypeKeys(s)[..n] == TypeKeys(s[..n]);
      TypeKeysCount(s[..n], k);
      assert multiset(s) == multiset(s[..n]) + multiset{s[n]};
    }
  }

  // ---------------------------------------------------------------------------
  // Decimal formatting, as Go's fmt "%d" writes an integer.

  predicate IsDigit(c: char) { '0' <= c <= '9' }

  function DigitChar(d: nat): char
    requires d < 10
  {
    "0123456789"[d]
  }

  function DigitValue(c: char): nat
    requires IsDigit(c)
  {
    (c as int - '0' as int) as nat
  }

  /** The shortest decimal numeral of `n` (no leading zeros). */
  function NatToDecimal(n: nat): (s: string)
    ensures |s| >= 1
    ensures forall i :: 0 <= i < |s| ==> IsDigit(s[i])
    ensures |s| > 1 ==> s[0] != '0'
  {
    if n < 10 then [DigitChar(n)] else NatToDecimal(n / 10) + [DigitChar(n % 10)]
  }

  /** The value a string of decimal digits denotes. */
  function DecimalValue(s: string): nat
    requires forall i :: 0 <= i < |s| ==> IsDigit(s[i])
  {
    if s == [] then 0 else 10 * DecimalValue(s[..|s| - 1]) + DigitValue(s[|s| - 1])
  }

  /** Reading back what "%d" wrote gives the number again. */
  lemma {:induction false} DecimalRoundTrip(n: nat)
    ensures DecimalValue(NatToDecimal(n)) == n
  {
    if n >= 10 {
      var s := NatToDecimal(n);
      assert s[..|s| - 1] == NatToDecimal(n / 10);
      DecimalRoundTrip(n / 10);
    }
  }

  /** Go's "%d" for a possibly negative int. */
  function IntToDecimal(i: int): (s: string)
    ensures i >= 0 ==> s == NatToDecimal(i)
    ensures i < 0 ==> s == "-" + NatToDecimal(-i)
  {
    if i < 0 then "-" + NatToDecimal(-i) else NatToDecimal(i)
  }

  // ---------------------------------------------------------------------------
  // Go's strings.Fields: split around runs of white space (unicode.IsSpace).

  predicate IsSpace(c: char) {
    || c == ' ' || c == '\t' || c == '\n' || c == '\U{000B}' || c == '\U{000C}' || c == '\r'
    || c == '\U{0085}' || c == '\U{00A0}' || c == '\U{1680}'
    || ('\U{2000}' <= c <= '\U{200A}')
    || c == '\U{2028}' || c == '\U{2029}' || c == '\U{202F}' || c == '\U{205F}' || c == '\U{3000}'
  }

  /** A field: non-empty and free of white space. */
  predicate IsWord(w: string) {
    |w| > 0 && forall i :: 0 <= i < |w| ==> !IsSpace(w[i])
  }

  /** Length of the longest space-free prefix of `s`. */
  function WordLen(s: string): (n: nat)
    ensures n <= |s|
    ensures forall i :: 0 <= i < n ==> !IsSpace(s[i])
    ensures n < |s| ==> IsSpace(s[n])
  {
    if s == [] || IsSpace(s[0]) then 0 else 1 + WordLen(s[1..])
  }

  function Fields(s: string): (r: seq<string>)
    ensures forall i :: 0 <= i < |r| ==> IsWord(r[i])
    decreases |s|
  {
    if s == [] then []
    else if IsSpace(s[0]) then Fields(s[1..])
    else
      var n := WordLen(s);
      [s[..n]] + Fields(s[n..])
  }

  /** The words joined by single spaces. */
  function JoinWords(ws: seq<string>): string {
    if ws == [] then "" else if |ws| == 1 then ws[0] else ws[0] + " " + JoinWords(ws[1..])
  }

  /** All characters of `s` that are not white space, in order. */
  function NonSpace(s: string): string {
    if s == [] then "" else (if IsSpace(s[0]) then "" else [s[0]]) + NonSpace(s[1..])
  }

  function Concat(ws: seq<string>): string {
    if ws == [] then "" else ws[0] + Concat(ws[1..])
  }

  lemma {:induction false} WordLenOfWord(w: string, rest: string)
    requires IsWord(w)
    requires rest == [] || IsSpace(rest[0])
    ensures WordLen(w + rest) == |w|
  {
    if |w| > 1 {
      assert (w + rest)[1..] == w[1..] + rest;
      WordLenOfWord(w[1..], rest);
    } else {
      assert (w + rest)[1..] == rest;
    }
  }

  lemma {:induction false} NonSpaceAppend(a: string, b: string)
    ensures NonSpace(a + b) == NonSpace(a) + NonSpace(b)
  {
    if a != [] {
      assert (a + b)[1..] == a[1..] + b;
      NonSpaceAppend(a[1..], b);
    } else {
      assert a + b == b;
    }
  }

  lemma {:induction false} NonSpaceOfWord(w: string)
    requires forall i :: 0 <= i < |w| ==> !IsSpace(w[i])
    ensures NonSpace(w) == w
  {
    if w != [] {
      NonSpaceOfWord(w[1..]);
    }
  }

  /** Splitting words that were joined by spaces gives the words back. */
  lemma {:induction false} FieldsOfJoin(ws: seq<string>)
    requires forall i :: 0 <= i < |ws| ==> IsWord(ws[i])
    ensures Fields(JoinWords(ws)) == ws
  {
    if |ws| == 1 {
      WordLenOfWord(ws[0], "");
      assert ws[0] + "" == ws[0];
      assert ws[0][|ws[0]|..] == [];
    } else if |ws| > 1 {
      var w, rest := ws[0], " " + JoinWords(ws[1..]);
      var s := w + rest;
      WordLenOfWord(w, rest);
      assert s[..|w|] == w;
      assert s[|w|..] == rest;
      assert rest[1..] == JoinWords(ws[1..]);
      assert JoinWords(ws) == s;
      assert s[0] == w[0] && !IsSpace(s[0]);
      assert Fields(s) == [w] + Fields(rest);
      assert Fields(rest) == Fields(rest[1..]);
      FieldsOfJoin(ws[1..]);
      assert ws == [w] + ws[1..];
    }
  }

  /** The fields hold exactly the non-space characters of the input, in order. */
  lemma {:induction false} FieldsKeepText(s: string)
    ensures Concat(Fields(s)) == NonSpace(s)
    decreases |s|
  {
    if s != [] {
      if IsSpace(s[0]) {
        FieldsKeepText(s[1..]);
      } else {
        var n := WordLen(s);
        assert s == s[..n] + s[n..];
        NonSpaceAppend(s[..n], s[n..]);
        NonSpaceOfWord(s[..n]);
        FieldsKeepText(s[n..]);
      }
    }
  }

  lemma {:induction false} FieldsOfBlank(s: string)
    requires forall i :: 0 <= i < |s| ==> IsSpace(s[i])
    ensures Fields(s) == []
  {
    if s != [] {
      FieldsOfBlank(s[1..]);
    }
  }
}
