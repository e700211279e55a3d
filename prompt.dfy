/**
 * Interactive prompting for a missing value (`AskIfMissing`,
 * `AskPasswordIfMissing` in the `shared/utils` package): the value is asked
 * for again and again until one passes the length bounds and the optional
 * checker. The terminal is modelled as the sequence of lines the user types,
 * each without its line end.
 */
module Prompt {
  import opened Wrappers

  /** Why a typed value was refused; each comes with its own message. */
  datatype Rejection =
    | Required           // "A value is required"
    | TooShort(min: int) // "Has to be more than <min> characters long"
    | TooLong(max: int)  // "Has to be less than <max> characters long"
    | CheckerRefused     // the checker printed its own message

  /** The number of bytes the UTF-8 encoding of `c` takes. */
  function CharBytes(c: char): (n: nat)
    ensures 1 <= n <= 4
    ensures n == 1 <==> (c as int) < 0x80
  {
    if (c as int) < 0x80 then 1
    else if (c as int) < 0x800 then 2
    else if (c as int) < 0x1_0000 then 3
    else 4
  }

  /** The length of a string as Go counts it: bytes of its UTF-8 encoding. */
  function ByteLength(s: string): (n: nat)
    ensures |s| <= n <= 4 * |s|
  {
    if s == [] then 0 else ByteLength(s[..|s| - 1]) + CharBytes(s[|s| - 1])
  }

  /** A string of ASCII characters is as many bytes long as it has characters. */
  lemma {:induction false} AsciiByteLength(s: string)
    requires forall i :: 0 <= i < |s| ==> (s[i] as int) < 0x80
    ensures ByteLength(s) == |s|
  {
    if s != [] {
      AsciiByteLength(s[..|s| - 1]);
    }
  }

  /** A string is as many bytes long as it has characters only when every
      character is ASCII. */
  lemma {:induction false} ByteLengthAscii(s: string)
    requires ByteLength(s) == |s|
    ensures forall i :: 0 <= i < |s| ==> (s[i] as int) < 0x80
  {
    if s != [] {
      var init := s[..|s| - 1];
      assert ByteLength(init) == |init| && CharBytes(s[|s| - 1]) == 1;
      ByteLengthAscii(init);
      assert forall i :: 0 <= i < |init| ==> s[i] == init[i];
    }
  }

  /** A value is acceptable when it is at least `min` bytes long, at most
      `max` bytes long unless `max` is 0 (no upper bound), and the checker,
      if any, accepts it. */
  ghost predicate Acceptable(value: string, min: int, max: int, checker: Option<string -> bool>)
  {
    && ByteLength(value) >= min
    && (max <= 0 || ByteLength(value) <= max)
    && (checker.None? || checker.value(value))
  }

  /** A typed line ends the prompt when it is not empty and acceptable: an
      empty line leaves the value unset, so the prompt is shown again. */
  ghost predicate Stores(line: string, min: int, max: int, checker: Option<string -> bool>)
  {
    line != "" && Acceptable(line, min, max, checker)
  }

  /** The validation of one typed value: `None` when it is accepted. */
  function Validate(value: string, min: int, max: int, checker: Option<string -> bool>): (r: Option<Rejection>)
    ensures r.None? <==> Acceptable(value, min, max, checker)
    ensures r == Some(Required) <==> value == "" && min >= 1
    ensures r.Some? && r.value.TooShort? ==> 0 < ByteLength(value) < min
    ensures r.Some? && r.value.TooLong? ==> max > 0 && ByteLength(value) > max
  {
    var n := ByteLength(value);
    if value == "" && min >= 1 then Some(Required)
    else if n < min then Some(TooShort(min))
    else if max > 0 && n > max then Some(TooLong(max))
    else if checker.Some? && !checker.value(value) then Some(CheckerRefused)
    else None
  }

  /** The four rows of the prompt test table. */
  lemma ValidateTable()
    ensures Validate("", 1, 5, None) == Some(Required)
    ensures Validate("superlong", 1, 5, None) == Some(TooLong(5))
    ensures Validate("a", 2, 5, None) == Some(TooShort(2))
    ensures var f := (v: string) => exists i :: 0 <= i < |v| && v[i] == 'f';
            Validate("booh", 0, 0, Some(f)) == Some(CheckerRefused)
            && Validate("foo", 0, 0, Some(f)).None?
    ensures Validate("foo", 1, 5, None).None? && Validate("foo", 2, 5, None).None?
  {
    var f := (v: string) => exists i :: 0 <= i < |v| && v[i] == 'f';
    assert "foo"[0] == 'f';
    AsciiByteLength("foo");
    assert !f("booh") by {
      var b := "booh";
      assert forall i :: 0 <= i < |b| ==> b[i] != 'f' by {
        assert b[0] == 'b' && b[1] == 'o' && b[2] == 'o' && b[3] == 'h';
      }
    }
  }

  /** `AskIfMissing(&value, prompt, min, max, checker)`: a value that is
      already set is kept as it is. Otherwise lines are read one at a time
      while the value is unset; a line that is refused, and an empty line,
      leave it unset. `used` counts the lines read. Running out of input
      leaves the value unset (`ok` false). */
  method AskIfMissing(value: string, console: seq<string>, min: int, max: int, checker: Option<string -> bool>)
    returns (stored: string, used: nat, ok: bool)
    ensures ok <==> stored != ""
    ensures value != "" ==> stored == value && used == 0
    ensures value == "" && ok ==>
              0 < used <= |console| && stored == console[used - 1]
              && Stores(stored, min, max, checker)
              && forall k :: 0 <= k < used - 1 ==> !Stores(console[k], min, max, checker)
    ensures !ok ==>
              used == |console|
              && forall k :: 0 <= k < |console| ==> !Stores(console[k], min, max, checker)
  {
    if value != "" {
      return value, 0, true;
    }
    stored, used, ok := "", 0, false;
    while used < |console| && stored == ""
      invariant 0 <= used <= |console|
      invariant ok <==> stored != ""
      invariant ok ==> 0 < used && stored == console[used - 1] && Stores(stored, min, max, checker)
      invariant forall k :: 0 <= k < (if ok then used - 1 else used) ==> !Stores(console[k], min, max, checker)
    {
      var line := console[used];
      used := used + 1;
      if Validate(line, min, max, checker).None? {
        stored := line;
      }
      ok := stored != "";
    }
  }

  /** `AskPasswordIfMissing(&value, prompt, min, max)`: the same loop with no
      checker; the typed characters are not echoed. */
  method AskPasswordIfMissing(value: string, console: seq<string>, min: int, max: int)
    returns (stored: string, used: nat, ok: bool)
    ensures ok <==> stored != ""
    ensures value != "" ==> stored == value && used == 0
    ensures value == "" && ok ==>
              0 < used <= |console| && stored == console[used - 1]
              && ByteLength(stored) >= min && (max <= 0 || ByteLength(stored) <= max)
              && forall k :: 0 <= k < used - 1 ==> !Stores(console[k], min, max, None)
    ensures !ok ==> used == |console| && forall k :: 0 <= k < |console| ==> !Stores(console[k], min, max, None)
  {
    stored, used, ok := AskIfMissing(value, console, min, max, None);
  }

  /** The test scenario: one refused line, then "foo", which is stored. Each
      row of the test table meets the requirement (`ValidateTable`). */
  method AskTwice(bad: string, min: int, max: int, checker: Option<string -> bool>)
    returns (stored: string, used: nat)
    requires Validate(bad, min, max, checker).Some? && Validate("foo", min, max, checker).None?
    ensures stored == "foo" && used == 2
  {
    var ok;
    stored, used, ok := AskIfMissing("", [bad, "foo"], min, max, checker);
    var console := [bad, "foo"];
    assert !Stores(console[0], min, max, checker);
    assert Stores(console[1], min, max, checker);
    assert ok;
    assert used != 1;
  }
}
