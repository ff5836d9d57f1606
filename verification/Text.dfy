/** The string operations the services share, on ASCII letters. */
module Text {

  function Lower(s: string): (r: string)
    ensures |r| == |s|
  {
    seq(|s|, i requires 0 <= i < |s| => if 'A' <= s[i] <= 'Z' then s[i] - 'A' + 'a' else s[i])
  }

  function Upper(s: string): (r: string)
    ensures |r| == |s|
  {
    seq(|s|, i requires 0 <= i < |s| => if 'a' <= s[i] <= 'z' then s[i] - 'a' + 'A' else s[i])
  }

  predicate StartsAt(s: string, i: nat, word: string) {
    i + |word| <= |s| && s[i..i + |word|] == word
  }

  predicate Contains(s: string, word: string) {
    exists i :: 0 <= i <= |s| && StartsAt(s, i, word)
  }

  predicate IsSpace(c: char) {
    c == ' ' || c == '\t' || c == '\n' || c == '\r'
  }

  function Trim(s: string): string {
    if s != "" && IsSpace(s[0]) then Trim(s[1..])
    else if s != "" && IsSpace(s[|s| - 1]) then Trim(s[..|s| - 1])
    else s
  }

  predicate AllSpace(s: string) {
    forall i :: 0 <= i < |s| ==> IsSpace(s[i])
  }

  /** White space, this text, white space. */
  predicate Surrounded(s: string, before: string, text: string, after: string) {
    s == before + text + after && AllSpace(before) && AllSpace(after)
  }

  lemma {:induction false} SpaceInFront(s: string, before: string, text: string, after: string)
    requires s != "" && IsSpace(s[0]) && Surrounded(s[1..], before, text, after)
    ensures Surrounded(s, [s[0]] + before, text, after)
  {
    assert s == [s[0]] + s[1..];
  }

  lemma {:induction false} SpaceBehind(s: string, before: string, text: string, after: string)
    requires s != "" && IsSpace(s[|s| - 1]) && Surrounded(s[..|s| - 1], before, text, after)
    ensures Surrounded(s, before, text, after + [s[|s| - 1]])
  {
    assert s == s[..|s| - 1] + [s[|s| - 1]];
  }

  /** Trimming takes white space off both ends and nothing else, until there is none left to take. */
  lemma {:induction false} TrimStrips(s: string) returns (before: string, after: string)
    ensures Surrounded(s, before, Trim(s), after)
    ensures var t := Trim(s); t != "" ==> !IsSpace(t[0]) && !IsSpace(t[|t| - 1])
  {
    before, after := "", "";
    if s != "" && IsSpace(s[0]) {
      before, after := TrimStrips(s[1..]);
      SpaceInFront(s, before, Trim(s), after);
      before := [s[0]] + before;
    } else if s != "" && IsSpace(s[|s| - 1]) {
      before, after := TrimStrips(s[..|s| - 1]);
      SpaceBehind(s, before, Trim(s), after);
      after := after + [s[|s| - 1]];
    }
  }

  // ---- Splitting at white space and joining again ----

  /** The words of `word + s`, where `word` is the unfinished word read so far. */
  function Words(word: string, s: string): seq<string>
    decreases s
  {
    if s == "" then (if word == "" then [] else [word])
    else if IsSpace(s[0]) then (if word == "" then [] else [word]) + Words("", s[1..])
    else Words(word + [s[0]], s[1..])
  }

  function Join(words: seq<string>): string {
    if words == [] then ""
    else if |words| == 1 then words[0]
    else words[0] + " " + Join(words[1..])
  }

  predicate IsWord(w: string) {
    w != "" && forall i :: 0 <= i < |w| ==> !IsSpace(w[i])
  }

  lemma {:induction false} WordsAreWords(word: string, s: string)
    requires forall i :: 0 <= i < |word| ==> !IsSpace(word[i])
    ensures forall i :: 0 <= i < |Words(word, s)| ==> IsWord(Words(word, s)[i])
    decreases s
  {
    if s != "" {
      if IsSpace(s[0]) { WordsAreWords("", s[1..]); } else { WordsAreWords(word + [s[0]], s[1..]); }
    }
  }

  /** Reading a whole word before a tail that is empty or starts with a space. */
  lemma {:induction false} WordThen(word: string, w: string, tail: string)
    requires forall i :: 0 <= i < |w| ==> !IsSpace(w[i])
    ensures Words(word, w + tail) == Words(word + w, tail)
    decreases w
  {
    if w == "" {
      assert w + tail == tail && word + w == word;
    } else {
      assert (w + tail)[1..] == w[1..] + tail;
      assert (word + [w[0]]) + w[1..] == word + w;
      WordThen(word + [w[0]], w[1..], tail);
    }
  }

  lemma {:induction false} SpaceEndsWord(word: string, s: string)
    requires IsWord(word)
    ensures Words(word, " " + s) == [word] + Words("", s)
  {
    assert (" " + s)[1..] == s;
  }

  lemma {:induction false} WordsOfJoin(words: seq<string>)
    requires forall i :: 0 <= i < |words| ==> IsWord(words[i])
    ensures Words("", Join(words)) == words
  {
    if words != [] {
      var tail := if |words| == 1 then "" else " " + Join(words[1..]);
      assert Join(words) == words[0] + tail by { assert words[0] + "" == words[0]; }
      WordThen("", words[0], tail);
      assert "" + words[0] == words[0];
      if |words| > 1 {
        WordsOfJoin(words[1..]);
        SpaceEndsWord(words[0], Join(words[1..]));
        assert words == [words[0]] + words[1..];
      }
    }
  }
}
