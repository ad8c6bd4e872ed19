/** The `component` generator of the Plop configuration: the validator of
    the `name` prompt and the two file paths the generator writes.

    `pascalCase` is a Handlebars helper defined outside this configuration;
    it is passed as a function parameter and nothing is assumed about it. */
module Plopfile {
  import opened Wrappers

  const RequiredMessage: string := "Component name is required"
  const UppercaseMessage: string := "Component name must start with an uppercase letter"

  /** What a Plop `validate` callback returns: `true`, or a message shown to the user. */
  datatype Validation = Accepted | Rejected(message: string)

  /** The characters ECMAScript's `String.prototype.trim` removes: WhiteSpace
      (tab, vertical tab, form feed, space, no-break space, the byte order
      mark and the other space separators) and LineTerminator. */
  predicate IsJsWhitespace(c: char)
  {
    var n := c as int;
    n == 0x09 || n == 0x0A || n == 0x0B || n == 0x0C || n == 0x0D || n == 0x20
    || n == 0xA0 || n == 0x1680 || (0x2000 <= n <= 0x200A) || n == 0x2028 || n == 0x2029
    || n == 0x202F || n == 0x205F || n == 0x3000 || n == 0xFEFF
  }

  /** Every character is whitespace (the empty string included). */
  predicate IsBlank(s: string)
  {
    forall i :: 0 <= i < |s| ==> IsJsWhitespace(s[i])
  }

  /** Drops leading whitespace: the result is the suffix starting at the
      first non-whitespace character. */
  function TrimStart(s: string): (r: string)
    ensures |r| <= |s| && r == s[|s| - |r|..]
    ensures forall i :: 0 <= i < |s| - |r| ==> IsJsWhitespace(s[i])
    ensures r != [] ==> !IsJsWhitespace(r[0])
    decreases |s|
  {
    if s != [] && IsJsWhitespace(s[0]) then TrimStart(s[1..]) else s
  }

  /** Drops trailing whitespace: the result is the prefix ending at the last
      non-whitespace character. */
  function TrimEnd(s: string): (r: string)
    ensures |r| <= |s| && r == s[..|r|]
    ensures forall i :: |r| <= i < |s| ==> IsJsWhitespace(s[i])
    ensures r != [] ==> !IsJsWhitespace(r[|r| - 1])
    decreases |s|
  {
    if s != [] && IsJsWhitespace(s[|s| - 1]) then TrimEnd(s[..|s| - 1]) else s
  }

  /** `value.trim()`: the piece of `s` left between its leading and its
      trailing whitespace, which neither begins nor ends with whitespace. */
  function Trim(s: string): (r: string)
    ensures var k := |s| - |TrimStart(s)|;
            && k + |r| <= |s| && r == s[k..k + |r|]
            && (forall i :: 0 <= i < k ==> IsJsWhitespace(s[i]))
            && (forall i :: k + |r| <= i < |s| ==> IsJsWhitespace(s[i]))
    ensures r != [] ==> !IsJsWhitespace(r[0]) && !IsJsWhitespace(r[|r| - 1])
  {
    TrimEnd(TrimStart(s))
  }

  /** `s.trim() === ''` holds exactly for blank strings. */
  lemma TrimEmptyIffBlank(s: string)
    ensures Trim(s) == "" <==> IsBlank(s)
  {
    // Follows from the contracts of TrimStart and TrimEnd: an empty trim
    // leaves no room for a non-whitespace character anywhere in s.
  }

  /** `/^[A-Z]/.test(value)`: the regex has no flags, so it is case-sensitive
      and looks only at the first character of the untrimmed value. */
  predicate StartsWithUppercase(s: string)
    ensures StartsWithUppercase(s) ==> !IsBlank(s)
  {
    |s| > 0 && 'A' <= s[0] <= 'Z'
  }

  /** The `validate` callback of the `name` prompt. An absent, empty or blank
      name is reported as missing before the uppercase rule is tried; any
      name whose first character is `A`-`Z` is accepted, whatever follows. */
  function Validate(value: Option<string>): (r: Validation)
    ensures r == Rejected(RequiredMessage) <==> value.None? || IsBlank(value.value)
    ensures r == Rejected(UppercaseMessage) <==>
              value.Some? && !IsBlank(value.value) && !StartsWithUppercase(value.value)
    ensures r == Accepted <==> value.Some? && StartsWithUppercase(value.value)
  {
    match value
    case None => Rejected(RequiredMessage)
    case Some(v) =>
      TrimEmptyIffBlank(v);
      if v == "" || Trim(v) == "" then Rejected(RequiredMessage)
      else if !StartsWithUppercase(v) then Rejected(UppercaseMessage)
      else Accepted
  }

  /** The validator answers with exactly one of its three outcomes. */
  lemma ValidateOutcomes(value: Option<string>)
    ensures Validate(value) in {Accepted, Rejected(RequiredMessage), Rejected(UppercaseMessage)}
  {
  }

  /** The directory both files go to: `src/components/{{pascalCase name}}/`. */
  function ComponentDirectory(pascalCase: string -> string, name: string): string
  {
    "src/components/" + pascalCase(name) + "/"
  }

  /** The path of the first `add` action, `src/components/P/P.vue` with
      `P = pascalCase(name)`, read off by position. */
  function ComponentFilePath(pascalCase: string -> string, name: string): (r: string)
    ensures var n := |pascalCase(name)|;
            && |r| == 2 * n + 20
            && r[..15] == "src/components/" && r[15..15 + n] == pascalCase(name)
            && r[15 + n] == '/' && r[16 + n..16 + 2 * n] == pascalCase(name)
            && r[16 + 2 * n..] == ".vue"
  {
    ComponentDirectory(pascalCase, name) + pascalCase(name) + ".vue"
  }

  /** The path of the second `add` action, `src/components/P/P.stories.ts`
      with `P = pascalCase(name)`, read off by position. */
  function StoryFilePath(pascalCase: string -> string, name: string): (r: string)
    ensures var n := |pascalCase(name)|;
            && |r| == 2 * n + 27
            && r[..15] == "src/components/" && r[15..15 + n] == pascalCase(name)
            && r[15 + n] == '/' && r[16 + n..16 + 2 * n] == pascalCase(name)
            && r[16 + 2 * n..] == ".stories.ts"
  {
    ComponentDirectory(pascalCase, name) + pascalCase(name) + ".stories.ts"
  }

  /** Both files share the directory `src/components/P/` and the stem `P`,
      where `P = pascalCase(name)`, and differ only in the suffix. */
  lemma GeneratedPathsShareStem(pascalCase: string -> string, name: string)
    ensures var stem := "src/components/" + pascalCase(name) + "/" + pascalCase(name);
            ComponentFilePath(pascalCase, name) == stem + ".vue"
            && StoryFilePath(pascalCase, name) == stem + ".stories.ts"
  {
  }

  /** The two actions never write the same file, whatever the two names
      and whatever the helper returns: the path lengths differ in parity. */
  lemma GeneratedPathsNeverCollide(pascalCase: string -> string, name1: string, name2: string)
    ensures ComponentFilePath(pascalCase, name1) != StoryFilePath(pascalCase, name2)
  {
    // the lengths are 2 * |P1| + 20 and 2 * |P2| + 27
  }

  /** Distinct component names (after `pascalCase`) get distinct files. */
  lemma {:induction false} GeneratedPathsInjective(pascalCase: string -> string, name1: string, name2: string)
    requires pascalCase(name1) != pascalCase(name2)
    ensures ComponentFilePath(pascalCase, name1) != ComponentFilePath(pascalCase, name2)
    ensures StoryFilePath(pascalCase, name1) != StoryFilePath(pascalCase, name2)
  {
    var p1, p2 := pascalCase(name1), pascalCase(name2);
    var a1, a2 := ComponentFilePath(pascalCase, name1), ComponentFilePath(pascalCase, name2);
    var b1, b2 := StoryFilePath(pascalCase, name1), StoryFilePath(pascalCase, name2);
    if |p1| == |p2| {
      assert a1[15..15 + |p1|] == p1 && a2[15..15 + |p2|] == p2;
      assert b1[15..15 + |p1|] == p1 && b2[15..15 + |p2|] == p2;
    } else {
      assert |a1| == 2 * |p1| + 20 && |a2| == 2 * |p2| + 20;
      assert |b1| == 2 * |p1| + 27 && |b2| == 2 * |p2| + 27;
    }
  }

  /** The files the generator writes for a prompt answer: none while the
      validator rejects it (the message is shown instead), otherwise the
      component and its story. */
  function Generate(pascalCase: string -> string, value: Option<string>): (r: (Validation, seq<string>))
    ensures r.0 == Validate(value)
    ensures r.0.Rejected? <==> r.1 == []
    ensures r.0 == Accepted ==>
              |r.1| == 2 && r.1[0] != r.1[1]
              && r.1[0] == ComponentFilePath(pascalCase, value.value)
              && r.1[1] == StoryFilePath(pascalCase, value.value)
  {
    var v := Validate(value);
    if v.Rejected? then (v, [])
    else
      GeneratedPathsNeverCollide(pascalCase, value.value, value.value);
      (v, [ComponentFilePath(pascalCase, value.value), StoryFilePath(pascalCase, value.value)])
  }

  /** The examples of the prompt: names starting with an uppercase letter pass. */
  lemma AcceptedExamples()
    ensures Validate(Some("Button")) == Accepted
    ensures Validate(Some("UserCard")) == Accepted
  {
  }

  /** A lowercase first letter, or a leading space, breaks the uppercase rule. */
  lemma UppercaseExamples()
    ensures Validate(Some("button")) == Rejected(UppercaseMessage)
    ensures Validate(Some(" Button")) == Rejected(UppercaseMessage)
  {
    assert !IsJsWhitespace(" Button"[1]);
    assert !IsJsWhitespace("button"[0]);
  }

  /** Missing, empty and blank names are reported as missing. */
  lemma RequiredExamples()
    ensures Validate(None) == Rejected(RequiredMessage)
    ensures Validate(Some("")) == Rejected(RequiredMessage)
    ensures Validate(Some(" \t\n")) == Rejected(RequiredMessage)
  {
    assert IsBlank(" \t\n");
  }
}
