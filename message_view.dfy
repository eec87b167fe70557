/** How one message is shown: whose it is, and how a fenced code block in its
    markdown is rendered (highlighted in the language its class names, or as
    plain code). */
module MessageView {
  import opened Wrappers
  import opened Text
  import opened Schema

  /** `message.role === 'user'`. */
  predicate IsUser(role: string) {
    role == "user"
  }

  /** The author label above the message. */
  function AuthorLabel(role: string): string {
    if IsUser(role) then "Tú" else "Asistente"
  }

  /** The label is the user's exactly for the role `user`; any other role,
      including one the schema does not know, is shown as the assistant's.
      A stored message is labelled by its own role. */
  lemma AuthorLabelSpec(role: string, r: Role)
    ensures AuthorLabel(role) == "Tú" <==> role == "user"
    ensures AuthorLabel(role) != "Tú" ==> AuthorLabel(role) == "Asistente"
    ensures AuthorLabel(RoleName(r)) == (if r == User then "Tú" else "Asistente")
  {
    assert "Asistente" != "Tú" by { assert |"Asistente"| != |"Tú"|; }
    assert RoleName(Assistant) != "user" by { assert RoleName(Assistant)[0] == 'a'; }
  }

  const LanguagePrefix := "language-"

  /** A match of `language-(\w+)` starts at `k`: the prefix, then a word character. */
  predicate LanguageMatchAt(s: string, k: nat) {
    OccursAt(s, LanguagePrefix, k) && k + |LanguagePrefix| < |s| && IsWordChar(s[k + |LanguagePrefix|])
  }

  /** The leftmost match at or after `i`, as the unanchored search finds it. */
  function LanguageMatchFrom(s: string, i: nat): (r: Option<nat>)
    requires i <= |s|
    ensures r.Some? ==> i <= r.value && LanguageMatchAt(s, r.value)
    ensures r.Some? ==> forall j :: i <= j < r.value ==> !LanguageMatchAt(s, j)
    ensures r.None? ==> forall j :: i <= j <= |s| ==> !LanguageMatchAt(s, j)
    decreases |s| - i
  {
    if LanguageMatchAt(s, i) then Some(i)
    else if i == |s| then None
    else LanguageMatchFrom(s, i + 1)
  }

  /** `match[1]` of `/language-(\w+)/.exec(className || '')`: the word
      characters after the leftmost `language-` that is followed by one. */
  function CodeLanguage(className: Option<string>): Option<string> {
    var s := className.GetOr("");
    match LanguageMatchFrom(s, 0)
    case None => None
    case Some(k) => Some(WordRun(s[k + |LanguagePrefix|..]))
  }

  /** A found language is a non-empty run of word characters that follows
      `language-` in the class name and cannot be extended; none is found
      exactly when no `language-` in the class name is followed by a word
      character. */
  lemma CodeLanguageSpec(className: Option<string>)
    ensures var s := className.GetOr(""); var l := CodeLanguage(className);
      && (l.None? <==> forall k :: 0 <= k <= |s| ==> !LanguageMatchAt(s, k))
      && (l.Some? ==>
            && l.value != [] && (forall i :: 0 <= i < |l.value| ==> IsWordChar(l.value[i]))
            && exists k :: 0 <= k <= |s| && OccursAt(s, LanguagePrefix + l.value, k)
                 && (k + |LanguagePrefix| + |l.value| == |s| || !IsWordChar(s[k + |LanguagePrefix| + |l.value|])))
  {
    var s := className.GetOr("");
    var m := LanguageMatchFrom(s, 0);
    if m.Some? {
      var k := m.value;
      var l := WordRun(s[k + |LanguagePrefix|..]);
      assert CodeLanguage(className) == Some(l);
      MatchedLanguage(s, k);
      assert 0 <= k <= |s| && OccursAt(s, LanguagePrefix + l, k);
    } else {
      assert CodeLanguage(className) == None;
    }
  }

  /** The run captured at a match follows the prefix and is maximal. */
  lemma MatchedLanguage(s: string, k: nat)
    requires LanguageMatchAt(s, k)
    ensures var l := WordRun(s[k + |LanguagePrefix|..]); var e := k + |LanguagePrefix| + |l|;
      && l != [] && e <= |s|
      && OccursAt(s, LanguagePrefix + l, k) && (e == |s| || !IsWordChar(s[e]))
  {
    var rest := s[k + |LanguagePrefix|..];
    var l := WordRun(rest);
    var e := k + |LanguagePrefix| + |l|;
    assert rest[0] == s[k + |LanguagePrefix|];
    assert s[k..k + |LanguagePrefix|] == LanguagePrefix;
    assert s[k + |LanguagePrefix|..e] == l;
    assert s[k..e] == LanguagePrefix + l;
    assert e == |s| || s[e] == rest[|l|];
  }

  /** The search is unanchored: the language is found after other classes. */
  lemma CodeLanguageExample()
    ensures CodeLanguage(Some("hljs language-python")) == Some("python")
    ensures CodeLanguage(None) == None
  {
    var s := "hljs language-python";
    forall j | 0 <= j < 5 ensures !LanguageMatchAt(s, j) {
      assert s[j + 4] != LanguagePrefix[4];
    }
    assert LanguageMatchAt(s, 5) by {
      assert s[5..14] == LanguagePrefix;
    }
    assert LanguageMatchFrom(s, 0) == Some(5);
    assert s[14..] == "python";
    WordRunUnique("python", "python");
  }

  /** `text.replace(/\n$/, '')`: one newline at the very end is removed. */
  function StripTrailingNewline(text: string): string {
    if text != [] && text[|text| - 1] == '\n' then text[..|text| - 1] else text
  }

  /** Exactly one trailing newline is removed when there is one, and the
      text is otherwise kept; so appending a newline and stripping it gives
      the text back, while a second newline survives. */
  lemma StripTrailingNewlineSpec(text: string)
    ensures var r := StripTrailingNewline(text);
      && (text != [] && text[|text| - 1] == '\n' ==> r + "\n" == text)
      && (text == [] || text[|text| - 1] != '\n' ==> r == text)
    ensures StripTrailingNewline(text + "\n") == text
    ensures StripTrailingNewline(text + "\n\n") == text + "\n"
  {
    assert (text + "\n")[..|text|] == text;
    assert (text + "\n\n")[..|text| + 1] == text + "\n";
  }

  /** How a code element is drawn. */
  datatype CodeRendering =
    | Highlighted(language: string, text: string)
    | PlainCode(className: string, text: string)

  /** The class of a plain code element: the given class (the word
      `undefined` when there is none) followed by the fixed styling. */
  function PlainClassName(className: Option<string>): string {
    (if className.Some? then className.value else "undefined") + " text-white px-1 py-0.5 rounded"
  }

  /** The code renderer: a block (not inline) with a language is highlighted
      in that language, without its trailing newline; anything else is plain
      code with its text as it is. */
  function RenderCode(inline: bool, className: Option<string>, text: string): (r: CodeRendering)
    ensures r.Highlighted? <==> !inline && CodeLanguage(className).Some?
    ensures r.Highlighted? ==> r.language == CodeLanguage(className).value && r.text == StripTrailingNewline(text)
    ensures r.PlainCode? ==> r.className == PlainClassName(className) && r.text == text
  {
    var lang := CodeLanguage(className);
    if !inline && lang.Some? then Highlighted(lang.value, StripTrailingNewline(text))
    else PlainCode(PlainClassName(className), text)
  }
}
