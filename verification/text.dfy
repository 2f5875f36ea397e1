/**
 The string helpers of the host platform that the Terraform patterns rely on:
 suffix tests, the extension of a file name, and the "empty or blank" test.
 Strings are `seq<char>`, sequences of Unicode scalar values. The platform
 works on UTF-16 code units; the two agree here because '.', '_' and every
 character up to U+0020 are ASCII, so the suffix, last-dot and blank tests
 give the same answers in either encoding.
 */
module Text {

  datatype Option<T> = None | Some(value: T)

  /** True iff `suffix` is a suffix of `s` (Kotlin `String.endsWith`). */
  predicate EndsWith(s: string, suffix: string) {
    |suffix| <= |s| && s[|s| - |suffix|..] == suffix
  }

  /** The extension of a file name: the text after its last '.', or None when
      the name holds no '.' at all. */
  function Extension(name: string): (r: Option<string>)
    ensures r.None? <==> '.' !in name
    ensures r.Some? ==> '.' !in r.value
    ensures r.Some? ==> |r.value| < |name| && name[|name| - |r.value| - 1] == '.'
    ensures r.Some? ==> EndsWith(name, r.value)
  {
    if |name| == 0 then None
    else if name[|name| - 1] == '.' then Some([])
    else
      var init := name[..|name| - 1];
      match Extension(init)
      case None => None
      case Some(e) =>
        assert init[|init| - |e|..] == e;
        assert name[|name| - |e| - 1..] == init[|init| - |e|..] + [name[|name| - 1]];
        Some(e + [name[|name| - 1]])
  }

  /** Whatever precedes the last '.', the extension is exactly what follows it. */
  lemma {:induction false} ExtensionAfterLastDot(stem: string, ext: string)
    requires '.' !in ext
    ensures Extension(stem + ['.'] + ext) == Some(ext)
    decreases |ext|
  {
    var name := stem + ['.'] + ext;
    if |ext| == 0 {
      assert name[|name| - 1] == '.';
    } else {
      var shorter := ext[..|ext| - 1];
      assert name[..|name| - 1] == stem + ['.'] + shorter;
      assert '.' !in shorter by {
        forall k | 0 <= k < |shorter| ensures shorter[k] != '.' {
          assert shorter[k] == ext[k];
        }
      }
      ExtensionAfterLastDot(stem, shorter);
      assert name[|name| - 1] == ext[|ext| - 1] && ext[|ext| - 1] != '.';
      assert shorter + [ext[|ext| - 1]] == ext;
    }
  }

  /** The blank test of the platform's string utilities: a string is empty or
      spaces when every character in it is at most U+0020, which is what
      trimming removes. */
  predicate IsEmptyOrSpaces(s: string) {
    forall i :: 0 <= i < |s| ==> s[i] <= ' '
  }
}
