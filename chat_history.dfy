/**
 * The chat transcript view: which messages are shown, how sandbox links and images are rewritten,
 * how code elements are highlighted, and where the placeholder and copy button appear.
 */
module ChatHistory {
  import opened Common
  import opened Messages

  // ---------------------------------------------------------------------------------------------
  // Which messages are shown

  /**
   * The filter's test for the message at `idx`: every user message; a model message once it has
   * text, or while it is the last one and the model is thinking.
   */
  predicate Kept(history: seq<Message>, thinking: bool, idx: nat)
    requires idx < |history|
  {
    history[idx].role == User
    || (history[idx].role == Model && (history[idx].text.Some? || (thinking && idx == |history| - 1)))
  }

  /** `history.filter(...)` over the first `n` messages. */
  function FilterPrefix(history: seq<Message>, thinking: bool, n: nat): seq<Message>
    requires n <= |history|
  {
    if n == 0 then []
    else FilterPrefix(history, thinking, n - 1) + (if Kept(history, thinking, n - 1) then [history[n - 1]] else [])
  }

  /** `historyFiltered`. */
  function HistoryFiltered(history: seq<Message>, thinking: bool): seq<Message> {
    FilterPrefix(history, thinking, |history|)
  }

  /** Shown wherever it stands: a user message, or a message with text. */
  predicate Visible(m: Message) {
    m.role == User || m.text.Some?
  }

  predicate IsUser(m: Message) {
    m.role == User
  }

  lemma {:induction false} FilterPrefixBeforeLast(history: seq<Message>, thinking: bool, n: nat)
    requires n < |history|
    ensures FilterPrefix(history, thinking, n) == Filter(history[..n], Visible)
  {
    if n > 0 {
      FilterPrefixBeforeLast(history, thinking, n - 1);
      assert history[..n][..n - 1] == history[..n - 1];
    }
  }

  /**
   * Reference definition: every message but the last is shown when it is visible; the last one
   * also while the model is thinking.
   */
  lemma FilteredByVisibility(history: seq<Message>, thinking: bool)
    requires history != []
    ensures var last := history[|history| - 1];
      HistoryFiltered(history, thinking)
        == Filter(history[..|history| - 1], Visible) + (if Visible(last) || thinking then [last] else [])
  {
    FilterPrefixBeforeLast(history, thinking, |history| - 1);
  }

  /** Every user message is shown, and the user messages keep their order. */
  lemma FilteredKeepsUsers(history: seq<Message>, thinking: bool)
    ensures Filter(HistoryFiltered(history, thinking), IsUser) == Filter(history, IsUser)
  {
    if history != [] {
      var init, last := history[..|history| - 1], history[|history| - 1];
      FilteredByVisibility(history, thinking);
      var tail := if Visible(last) || thinking then [last] else [];
      FilterAppend(Filter(init, Visible), tail, IsUser);
      FilterAfterWeaker(init, Visible, IsUser);
      assert history == init + [last];
      FilterAppend(init, [last], IsUser);
      assert Filter([last], IsUser) == if IsUser(last) then [last] else [] by {
        assert [last][..0] == [];
      }
      if tail == [] {
        assert Filter(tail, IsUser) == [];
      }
    }
  }

  /** While thinking, the last message of the history is the last one shown. */
  lemma ThinkingShowsLastMessage(history: seq<Message>)
    requires history != []
    ensures var f := HistoryFiltered(history, true);
      f != [] && f[|f| - 1] == history[|history| - 1]
  {
    FilteredByVisibility(history, true);
  }

  /** The thinking indicator is drawn beside the avatar of a shown model message that is the last one shown. */
  predicate ShowsThinking(shown: seq<Message>, thinking: bool, idx: nat)
    requires idx < |shown|
  {
    shown[idx].role == Model && thinking && idx == |shown| - 1
  }

  /**
   * The indicator is drawn exactly while thinking with a model message last in the history,
   * and then it is drawn on that message.
   */
  lemma ThinkingIndicator(history: seq<Message>, thinking: bool)
    ensures var f := HistoryFiltered(history, thinking);
      (exists idx :: 0 <= idx < |f| && ShowsThinking(f, thinking, idx))
      <==> (thinking && history != [] && history[|history| - 1].role == Model)
    ensures var f := HistoryFiltered(history, thinking);
      forall idx :: 0 <= idx < |f| && ShowsThinking(f, thinking, idx) ==> f[idx] == history[|history| - 1]
  {
    var f := HistoryFiltered(history, thinking);
    if thinking && history != [] {
      ThinkingShowsLastMessage(history);
      if history[|history| - 1].role == Model {
        assert ShowsThinking(f, thinking, |f| - 1);
      }
    } else if history == [] {
      assert f == [];
    }
  }

  /** Filtering the shown messages again shows the same messages. */
  lemma FilteredIdempotent(history: seq<Message>, thinking: bool)
    ensures HistoryFiltered(HistoryFiltered(history, thinking), thinking) == HistoryFiltered(history, thinking)
  {
    var f := HistoryFiltered(history, thinking);
    if history != [] {
      var init, last := history[..|history| - 1], history[|history| - 1];
      FilteredByVisibility(history, thinking);
      FilterAfterWeaker(init, Visible, Visible);
      if Visible(last) || thinking {
        assert f[..|f| - 1] == Filter(init, Visible);
        FilteredByVisibility(f, thinking);
      } else if f != [] {
        assert f == Filter(init, Visible);
        FilteredByVisibility(f, thinking);
        var fi := f[..|f| - 1];
        assert f == fi + [f[|f| - 1]];
        FilterAppend(fi, [f[|f| - 1]], Visible);
        assert Filter([f[|f| - 1]], Visible) == [f[|f| - 1]] by {
          assert [f[|f| - 1]][..0] == [];
        }
      }
    }
  }

  // ---------------------------------------------------------------------------------------------
  // Sandbox links and images

  const SandboxPrefix := "sandbox:/workspace/"
  const FilesRoute := "/api/files/"

  /** `urlTransform`: a sandbox path is served by the files route; any other URL is kept. */
  function UrlTransform(url: string): string {
    if StartsWith(url, SandboxPrefix) then FilesRoute + ReplaceFirst(url, SandboxPrefix, "") else url
  }

  /** The `src` of a rendered image: the same rewrite, with a missing `src` read as `""`. */
  function ImgSrc(src: Option<string>): string {
    UrlTransform(src.GetOr(""))
  }

  /**
   * A sandbox URL becomes the files route followed by the rest of the URL, any other URL is kept;
   * images follow the same rule; and rewriting a rewritten URL changes nothing.
   */
  lemma UrlTransformSpec(url: string)
    ensures StartsWith(url, SandboxPrefix) ==> UrlTransform(url) == FilesRoute + url[|SandboxPrefix|..]
    ensures !StartsWith(url, SandboxPrefix) ==> UrlTransform(url) == url
    ensures ImgSrc(Some(url)) == UrlTransform(url) && ImgSrc(None) == ""
    ensures UrlTransform(UrlTransform(url)) == UrlTransform(url)
  {
    if StartsWith(url, SandboxPrefix) {
      ReplaceFirstOfPrefix(url, SandboxPrefix, "");
      var r := UrlTransform(url);
      assert r[0] == '/' != SandboxPrefix[0];
    }
  }

  // ---------------------------------------------------------------------------------------------
  // Code elements

  /** `\w`. */
  predicate IsWordChar(c: char) {
    ('a' <= c <= 'z') || ('A' <= c <= 'Z') || ('0' <= c <= '9') || c == '_'
  }

  const LanguagePrefix := "language-"

  /** `/language-(\w+)/` can match at `i`. */
  predicate MatchAt(s: string, i: nat) {
    OccursAt(s, LanguagePrefix, i) && i + |LanguagePrefix| < |s| && IsWordChar(s[i + |LanguagePrefix|])
  }

  /** The end of the longest run of word characters starting at `j` (the greedy `\w+`). */
  function WordRunEnd(s: string, j: nat): (e: nat)
    requires j <= |s|
    ensures j <= e <= |s|
    ensures forall k :: j <= k < e ==> IsWordChar(s[k])
    ensures e < |s| ==> !IsWordChar(s[e])
    decreases |s| - j
  {
    if j < |s| && IsWordChar(s[j]) then WordRunEnd(s, j + 1) else j
  }

  /** The leftmost position at or after `from` where the expression matches, or -1. */
  function FirstMatchFrom(s: string, from: nat): (k: int)
    ensures k == -1 || (from <= k && MatchAt(s, k))
    ensures k >= 0 ==> forall j: nat :: from <= j < k ==> !MatchAt(s, j)
    ensures k == -1 ==> forall j: nat :: from <= j ==> !MatchAt(s, j)
    decreases |s| - from
  {
    if from + |LanguagePrefix| >= |s| then -1
    else if MatchAt(s, from) then from
    else FirstMatchFrom(s, from + 1)
  }

  /** `match[1]` of `/language-(\w+)/.exec(className || '')`, or `None` when it does not match. */
  function LanguageOf(className: Option<string>): (r: Option<string>)
    ensures r.Some? ==> |r.value| > 0 && forall k :: 0 <= k < |r.value| ==> IsWordChar(r.value[k])
  {
    var s := className.GetOr("");
    var i := FirstMatchFrom(s, 0);
    if i < 0 then None else Some(s[i + |LanguagePrefix|..WordRunEnd(s, i + |LanguagePrefix|)])
  }

  /**
   * The language is the whole word run after the leftmost `language-` that is followed by a word
   * character; there is none exactly when no `language-` is followed by one.
   */
  lemma LanguageOfSpec(className: Option<string>)
    ensures var s := className.GetOr("");
      (LanguageOf(className).None? <==> forall i: nat :: !MatchAt(s, i))
      && (LanguageOf(className).Some? ==>
            exists i: nat :: (MatchAt(s, i)
              && (forall j: nat :: j < i ==> !MatchAt(s, j))
              && var e := WordRunEnd(s, i + |LanguagePrefix|);
                 LanguageOf(className).value == s[i + |LanguagePrefix|..e]
                 && (e == |s| || !IsWordChar(s[e]))))
  {
    var s := className.GetOr("");
    var i := FirstMatchFrom(s, 0);
    if i >= 0 {
      assert MatchAt(s, i);
    }
  }

  /** `String(children).replace(/\n$/, '')`: one line break at the very end is removed. */
  function StripTrailingNewline(s: string): (r: string)
    ensures r == s || r + "\n" == s
    ensures EndsWith(s, "\n") <==> |r| == |s| - 1
  {
    if EndsWith(s, "\n") then s[..|s| - 1] else s
  }

  /** How a code element is rendered. */
  datatype CodeView =
    | Block(language: string, shown: string, copied: string)   // highlighted, with a copy button
    | Inline(text: string)

  function RenderCode(className: Option<string>, children: string): CodeView {
    var lang := LanguageOf(className);
    if lang.Some? then Block(lang.value, StripTrailingNewline(children), children) else Inline(children)
  }

  /**
   * A code element is a highlighted block exactly when its class names a language; the block shows
   * the code without one final line break and copies it whole.
   */
  lemma RenderCodeSpec(className: Option<string>, children: string)
    ensures RenderCode(className, children).Block? <==> LanguageOf(className).Some?
    ensures RenderCode(className, children).Inline? ==> RenderCode(className, children).text == children
    ensures var v := RenderCode(className, children);
      v.Block? ==>
        (v.language == LanguageOf(className).value && v.copied == children && (v.shown == children || v.shown + "\n" == children)
         && (EndsWith(children, "\n") ==> v.shown + "\n" == children))
  {
  }

  // ---------------------------------------------------------------------------------------------
  // Placeholder and copy button

  /** An empty or missing text is shown as `...`. */
  predicate ShowsPlaceholder(m: Message) {
    m.text == Some("") || m.text.None?
  }

  /** A copy button for the message text (`msg.text` is truthy: defined and not empty). */
  predicate HasCopyButton(m: Message) {
    m.role == Model && m.text.Some? && m.text.value != ""
  }

  /** A model message shows either the placeholder or a copy button; user messages never copy. */
  lemma PlaceholderOrCopy(m: Message)
    ensures m.role == Model ==> (ShowsPlaceholder(m) <==> !HasCopyButton(m))
    ensures m.role == User ==> !HasCopyButton(m)
  {
  }
}
