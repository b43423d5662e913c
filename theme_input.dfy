/**
 * The theme form (frontend/src/components/ThemeInput.jsx): the typed theme, the error message,
 * and the submit handler that refuses a blank theme.
 */
module ThemeInput {
  import opened Wrappers

  const EmptyThemeError: string := "Theme cannot be empty"

  /** The characters JavaScript's `String.prototype.trim` removes: white space and line terminators. */
  predicate IsTrimmable(c: char)
  {
    var k := c as int;
    || k == 0x09 || k == 0x0A || k == 0x0B || k == 0x0C || k == 0x0D || k == 0x20
    || k == 0xA0 || k == 0x1680 || (0x2000 <= k <= 0x200A) || k == 0x2028 || k == 0x2029
    || k == 0x202F || k == 0x205F || k == 0x3000 || k == 0xFEFF
  }

  /** `s` with its leading white space removed: a suffix of `s` that starts, if at all, with a kept character. */
  function TrimStart(s: string): (t: string)
    ensures |t| <= |s| && t == s[|s| - |t|..]
    ensures forall i :: 0 <= i < |s| - |t| ==> IsTrimmable(s[i])
    ensures t != [] ==> !IsTrimmable(t[0])
    decreases |s|
  {
    if s != [] && IsTrimmable(s[0]) then TrimStart(s[1..]) else s
  }

  /** `s` with its trailing white space removed: a prefix of `s` that ends, if at all, with a kept character. */
  function TrimEnd(s: string): (t: string)
    ensures |t| <= |s| && t == s[..|t|]
    ensures forall i :: |t| <= i < |s| ==> IsTrimmable(s[i])
    ensures t != [] ==> !IsTrimmable(t[|t| - 1])
    decreases |s|
  {
    if s != [] && IsTrimmable(s[|s| - 1]) then TrimEnd(s[..|s| - 1]) else s
  }

  /** `s.trim()`. */
  function Trim(s: string): string
  {
    TrimEnd(TrimStart(s))
  }

  /** `!theme.trim()`: the trimmed theme is the empty string, which JavaScript treats as false. */
  predicate IsBlank(theme: string)
  {
    Trim(theme) == ""
  }

  /** A theme is blank exactly when every one of its characters is white space (the empty theme included). */
  lemma BlankIffAllWhiteSpace(theme: string)
    ensures IsBlank(theme) <==> forall i :: 0 <= i < |theme| ==> IsTrimmable(theme[i])
  {
    var t := TrimStart(theme);
    if !IsBlank(theme) {
      assert Trim(theme) != [];
      assert t != [];
      assert theme[|theme| - |t|] == t[0];
    }
  }

  /** The form: the theme typed so far and the error message shown under it. */
  class ThemeForm {
    var theme: string
    var error: string

    constructor ()
      ensures theme == "" && error == ""
    {
      theme := "";
      error := "";
    }

    /** The input's `onChange`: the theme becomes exactly what the input holds. */
    method OnChange(value: string)
      modifies this
      ensures theme == value && error == old(error)
    {
      theme := value;
    }

    /**
     * `handleSubmit`: a blank theme sets the error and submits nothing; any other theme is
     * handed to `onSubmit` exactly as typed, untrimmed, and the error is left as it was.
     */
    method HandleSubmit() returns (submitted: Option<string>)
      modifies this
      ensures theme == old(theme)
      ensures IsBlank(theme) ==> error == EmptyThemeError && submitted == None
      ensures !IsBlank(theme) ==> error == old(error) && submitted == Some(theme)
    {
      if IsBlank(theme) {
        error := EmptyThemeError;
        submitted := None;
        return;
      }
      submitted := Some(theme);
    }
  }
}
