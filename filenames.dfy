// The file-name rules the artifact store (core/artifact_manager.py) and the chat store
// (core/chat_manager.py) share: derived titles and Windows-safe file names.
module FileNames {
  import opened Text
  import opened Base

  /** Characters Windows refuses in a file name. */
  const INVALID := "<>:\"/\\|?*"

  const MAX_TITLE_WORDS := 5
  const MAX_TITLE_LEN := 50

  /** str.replace(c, d) for single characters. */
  function ReplaceChar(s: string, c: char, d: char): (r: string)
    ensures |r| == |s|
    ensures forall k :: 0 <= k < |s| ==> r[k] == if s[k] == c then d else s[k]
  {
    seq(|s|, k requires 0 <= k < |s| => if s[k] == c then d else s[k])
  }

  /** s with every character from cs replaced by an underscore. */
  function ReplaceAmong(s: string, cs: string): (r: string)
    ensures |r| == |s|
    ensures forall k :: 0 <= k < |s| ==> r[k] == if s[k] in cs then '_' else s[k]
  {
    seq(|s|, k requires 0 <= k < |s| => if s[k] in cs then '_' else s[k])
  }

  predicate HasNoInvalid(s: string) {
    forall k :: 0 <= k < |s| ==> s[k] !in INVALID
  }

  /** What _sanitize_filename returns: invalid characters become underscores, surrounding
      whitespace goes, and an empty result becomes the placeholder. */
  function SanitizedName(s: string, placeholder: string): string {
    var t := Strip(ReplaceAmong(s, INVALID));
    if t == [] then placeholder else t
  }

  /** _sanitize_filename: one replace pass per invalid character, then strip. */
  method SanitizeFilename(filename: string, placeholder: string) returns (r: string)
    ensures r == SanitizedName(filename, placeholder)
  {
    var name := filename;
    var i := 0;
    while i < |INVALID|
      invariant 0 <= i <= |INVALID|
      invariant name == ReplaceAmong(filename, INVALID[..i])
    {
      assert INVALID[..i + 1] == INVALID[..i] + [INVALID[i]];
      name := ReplaceChar(name, INVALID[i], '_');
      i := i + 1;
    }
    assert INVALID[..i] == INVALID;
    name := Strip(name);
    if name == "" {
      name := "" + placeholder;
    }
    r := name;
  }

  /** A placeholder the sanitiser can hand out as it is. */
  predicate IsCleanName(p: string) {
    p != [] && IsStripped(p) && HasNoInvalid(p)
  }

  const ARTIFACT_PLACEHOLDER := "Senza titolo"
  const CHAT_PLACEHOLDER := "Chat senza titolo"

  lemma PlaceholdersClean()
    ensures IsCleanName(ARTIFACT_PLACEHOLDER) && IsCleanName(CHAT_PLACEHOLDER)
  {
  }

  /** A sanitised name is non-empty, has no surrounding whitespace and none of the
      characters Windows refuses. */
  lemma SanitizedIsClean(s: string, placeholder: string)
    requires IsCleanName(placeholder)
    ensures IsCleanName(SanitizedName(s, placeholder))
  {
    var u := ReplaceAmong(s, INVALID);
    StripShape(u);
    var i, j :| StripsTo(u, i, j);
    var t := Strip(u);
    forall k | 0 <= k < |t| ensures t[k] !in INVALID {
      assert t[k] == u[i + k];
    }
  }

  /** Sanitising a sanitised name changes nothing. */
  lemma SanitizeIdempotent(s: string, placeholder: string)
    requires IsCleanName(placeholder)
    ensures SanitizedName(SanitizedName(s, placeholder), placeholder) == SanitizedName(s, placeholder)
  {
    var r := SanitizedName(s, placeholder);
    SanitizedIsClean(s, placeholder);
    assert ReplaceAmong(r, INVALID) == r;
    StripOfStripped(r);
  }

  /** words[:n] */
  function Take(words: seq<string>, n: nat): (r: seq<string>)
    ensures |r| == if |words| < n then |words| else n
    ensures r == words[..|r|]
  {
    if |words| <= n then words else words[..n]
  }

  /** _extract_title_from_content on a text: the first five words joined by single spaces,
      cut to 47 characters plus "..." when longer than 50. */
  function TitleFromText(content: string): string {
    var words := Words(Strip(ReplaceChar(content, '\n', ' ')));
    var title := Join(Take(words, MAX_TITLE_WORDS), " ");
    if |title| > MAX_TITLE_LEN then title[..47] + "..." else title
  }

  /** The derived title never exceeds 50 characters; a cut title is exactly 50 long and ends
      with an ellipsis after the first 47 characters of the joined words. */
  lemma TitleBounds(content: string)
    ensures |TitleFromText(content)| <= MAX_TITLE_LEN
    ensures var full := Join(Take(Words(Strip(ReplaceChar(content, '\n', ' '))), MAX_TITLE_WORDS), " ");
            if |full| <= MAX_TITLE_LEN then TitleFromText(content) == full
            else |TitleFromText(content)| == MAX_TITLE_LEN
                 && TitleFromText(content) == full[..47] + "..."
  {
  }

  lemma {:induction false} JoinWords(w: seq<string>)
    requires forall i :: 0 <= i < |w| ==> IsWord(w[i])
    ensures w != [] ==> Join(w, " ") != [] && !IsSpace(Join(w, " ")[0])
    ensures w != [] ==> !IsSpace(Join(w, " ")[|Join(w, " ")| - 1])
  {
    if |w| > 1 {
      JoinWords(w[1..]);
      var rest := Join(w[1..], " ");
      assert Join(w, " ") == w[0] + " " + rest;
      assert Join(w, " ")[|Join(w, " ")| - 1] == rest[|rest| - 1];
    }
  }

  /** A title derived from a text with at least one word is non-empty and carries no
      surrounding whitespace. */
  lemma TitleOfWordsIsStripped(content: string)
    requires Words(Strip(ReplaceChar(content, '\n', ' '))) != []
    ensures TitleFromText(content) != [] && !IsSpace(TitleFromText(content)[0])
  {
    var words := Words(Strip(ReplaceChar(content, '\n', ' ')));
    WordsAreWords(Strip(ReplaceChar(content, '\n', ' ')));
    var w := Take(words, MAX_TITLE_WORDS);
    JoinWords(w);
  }

  /** split() reads a word followed by a space as that word and the rest. */
  lemma WordThenRest(a: string, rest: string)
    requires IsWord(a)
    ensures Words(a + " " + rest) == [a] + Words(rest)
  {
    var s := a + " " + rest;
    var n := TokenLen(s);
    assert forall k :: 0 <= k < |a| ==> s[k] == a[k];
    assert IsSpace(s[|a|]);
    assert n == |a|;
    assert s[..n] == a;
    assert s[n..][1..] == rest;
  }

  lemma {:induction false} WordsOfJoin(w: seq<string>)
    requires forall i :: 0 <= i < |w| ==> IsWord(w[i])
    ensures Words(Join(w, " ")) == w
  {
    if |w| == 1 {
      var a := w[0];
      assert TokenLen(a) == |a|;
      assert a[..|a|] == a && a[|a|..] == [];
    } else if |w| > 1 {
      WordsOfJoin(w[1..]);
      WordThenRest(w[0], Join(w[1..], " "));
    }
  }

  lemma {:induction false} JoinHasNoNewline(w: seq<string>)
    requires forall i :: 0 <= i < |w| ==> IsWord(w[i])
    ensures forall k :: 0 <= k < |Join(w, " ")| ==> Join(w, " ")[k] != '\n'
  {
    if |w| > 1 {
      JoinHasNoNewline(w[1..]);
      var rest := Join(w[1..], " ");
      forall k | 0 <= k < |Join(w, " ")| ensures Join(w, " ")[k] != '\n' {
        if k > |w[0]| {
          assert Join(w, " ")[k] == rest[k - |w[0]| - 1];
        }
      }
    }
  }

  /** A text of at most five words, single-spaced and no longer than 50 characters, is its
      own title. */
  lemma ShortTextIsOwnTitle(w: seq<string>)
    requires forall i :: 0 <= i < |w| ==> IsWord(w[i])
    requires |w| <= MAX_TITLE_WORDS && |Join(w, " ")| <= MAX_TITLE_LEN
    ensures TitleFromText(Join(w, " ")) == Join(w, " ")
  {
    var s := Join(w, " ");
    JoinHasNoNewline(w);
    assert ReplaceChar(s, '\n', ' ') == s;
    JoinWords(w);
    StripOfStripped(s);
    WordsOfJoin(w);
  }

  /** chat_manager's _extract_title_from_content: the title of the last user message, or the
      placeholder when nobody wrote one. */
  function ChatTitle(history: seq<Message>): string {
    if history == [] then CHAT_PLACEHOLDER
    else if history[|history| - 1].role == USER then TitleFromText(history[|history| - 1].content)
    else ChatTitle(history[..|history| - 1])
  }

  /** The chat title comes from the last user message, whatever follows it. */
  lemma {:induction false} ChatTitleFromLastUser(history: seq<Message>, i: nat)
    requires i < |history| && history[i].role == USER
    requires forall j :: i < j < |history| ==> history[j].role != USER
    ensures ChatTitle(history) == TitleFromText(history[i].content)
    decreases |history|
  {
    if i < |history| - 1 {
      ChatTitleFromLastUser(history[..|history| - 1], i);
    }
  }

  /** Without a user message the placeholder is the title. */
  lemma {:induction false} ChatTitleWithoutUser(history: seq<Message>)
    requires forall j :: 0 <= j < |history| ==> history[j].role != USER
    ensures ChatTitle(history) == CHAT_PLACEHOLDER
    decreases |history|
  {
    if history != [] {
      ChatTitleWithoutUser(history[..|history| - 1]);
    }
  }
}
