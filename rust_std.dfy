/** The few pieces of Rust's standard library the handlers rely on:
    `Option`, the fixed-width unsigned integers of the form fields, and
    `str::starts_with`. */
module RustStd {

  datatype Option<+T> = None | Some(value: T)

  /** `u16`: probe vendor and product ids. */
  type uint16 = x: int | 0 <= x < 0x1_0000

  /** `u32`: firmware version and probe speed in kHz. */
  type uint32 = x: int | 0 <= x < 0x1_0000_0000

  /** `str::starts_with`: a character-by-character, hence case-sensitive, prefix test. */
  predicate StartsWith(s: string, prefix: string) {
    |prefix| <= |s| && s[..|prefix|] == prefix
  }

  /** `s` starts with `prefix` exactly when `s` is `prefix` followed by something. */
  lemma StartsWithIffConcat(s: string, prefix: string)
    ensures StartsWith(s, prefix) <==> exists rest :: s == prefix + rest
  {
    if StartsWith(s, prefix) {
      assert s == prefix + s[|prefix|..];
    }
    if exists rest :: s == prefix + rest {
      var rest :| s == prefix + rest;
      assert s[..|prefix|] == prefix;
    }
  }
}
