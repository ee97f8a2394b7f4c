// Candidate cards harvested from daily rounds: the key under which the same joke
// is recognised, and the queue it is merged into
// (backend/internal/daily/promote.go).
module CardCandidates {
  import opened Wrappers

  // What the Unicode tables say of a character.
  datatype Alphabet = Alphabet(lower: char -> char, letterOrDigit: char -> bool, space: char -> bool)

  ghost predicate Sensible(u: Alphabet) {
    u.space(' ') && u.lower(' ') == ' '
    && (forall c :: u.lower(u.lower(c)) == u.lower(c))
    && forall c :: !(u.letterOrDigit(c) && u.space(c))
  }

  function Lowered(u: Alphabet, s: string): (r: string)
    ensures |r| == |s|
    ensures forall i :: 0 <= i < |s| ==> r[i] == u.lower(s[i])
  {
    seq(|s|, i requires 0 <= i < |s| => u.lower(s[i]))
  }

  // The loop of NormalizeCandidateText from one character on.
  function Kept(u: Alphabet, s: string, lastSpace: bool): string {
    if s == "" then ""
    else if u.letterOrDigit(s[0]) then [s[0]] + Kept(u, s[1..], false)
    else if u.space(s[0]) then (if lastSpace then "" else " ") + Kept(u, s[1..], true)
    else Kept(u, s[1..], lastSpace)
  }

  function TrimEnd(u: Alphabet, s: string): string {
    if s != "" && u.space(s[|s| - 1]) then TrimEnd(u, s[..|s| - 1]) else s
  }

  function TrimStart(u: Alphabet, s: string): string {
    if s != "" && u.space(s[0]) then TrimStart(u, s[1..]) else s
  }

  function Normalized(u: Alphabet, s: string): string {
    TrimStart(u, TrimEnd(u, Kept(u, Lowered(u, s), true)))
  }

  method NormalizeCandidateText(u: Alphabet, value: string) returns (key: string)
    ensures key == Normalized(u, value)
  {
    var b := "";
    var lastSpace := true;
    var text := Lowered(u, value);
    var i := 0;
    while i < |text|
      invariant i <= |text| && Kept(u, text, true) == b + Kept(u, text[i..], lastSpace)
    {
      var r := text[i];
      assert text[i..][0] == r && text[i..][1..] == text[i + 1..];
      if u.letterOrDigit(r) {
        b := b + [r];
        lastSpace := false;
      } else if u.space(r) {
        if !lastSpace {
          b := b + " ";
          lastSpace := true;
        }
      }
      i := i + 1;
    }
    assert text[i..] == "" && b + "" == b;
    key := TrimStart(u, TrimEnd(u, b));
  }

  // Words of lower-case letters and digits with single spaces between them.
  ghost predicate Clean(u: Alphabet, s: string) {
    (forall i :: 0 <= i < |s| ==> (u.letterOrDigit(s[i]) && u.lower(s[i]) == s[i]) || s[i] == ' ')
    && (forall i :: 0 <= i < |s| - 1 ==> !(s[i] == ' ' && s[i + 1] == ' '))
  }

  lemma {:induction false} KeptIsClean(u: Alphabet, s: string, lastSpace: bool)
    requires Sensible(u) && forall i :: 0 <= i < |s| ==> u.lower(s[i]) == s[i]
    ensures var k := Kept(u, s, lastSpace);
            Clean(u, k) && (lastSpace && k != "" ==> k[0] != ' ')
  {
    if s != "" {
      KeptIsClean(u, s[1..], if u.letterOrDigit(s[0]) then false else if u.space(s[0]) then true else lastSpace);
    }
  }

  lemma {:induction false} TrimEndCleans(u: Alphabet, s: string)
    requires Sensible(u) && Clean(u, s)
    ensures var t := TrimEnd(u, s);
            Clean(u, t) && |t| <= |s| && t == s[..|t|] && (t != "" ==> t[|t| - 1] != ' ')
  {
    if s != "" && u.space(s[|s| - 1]) {
      TrimEndCleans(u, s[..|s| - 1]);
    }
  }

  lemma NormalIsClean(u: Alphabet, s: string)
    requires Sensible(u)
    ensures var t := Normalized(u, s);
            Clean(u, t) && (t != "" ==> t[0] != ' ' && t[|t| - 1] != ' ')
  {
    KeptIsClean(u, Lowered(u, s), true);
    var k := Kept(u, Lowered(u, s), true);
    TrimEndCleans(u, k);
    var t := TrimEnd(u, k);
    assert t != "" ==> t[0] == k[0];
  }

  lemma {:induction false} CleanIsKept(u: Alphabet, s: string, lastSpace: bool)
    requires Sensible(u) && Clean(u, s) && (lastSpace && s != "" ==> s[0] != ' ')
    ensures Kept(u, s, lastSpace) == s
  {
    if s != "" {
      CleanIsKept(u, s[1..], s[0] == ' ');
      assert s == [s[0]] + s[1..];
    }
  }

  // Normalizing twice is normalizing once, so a key is its own key.
  lemma NormalizedTwice(u: Alphabet, s: string)
    requires Sensible(u)
    ensures Normalized(u, Normalized(u, s)) == Normalized(u, s)
  {
    NormalIsClean(u, s);
    var t := Normalized(u, s);
    assert Lowered(u, t) == t;
    CleanIsKept(u, t, true);
  }

  // --- a key is the words of the text ---

  // The runs of letters and digits between spaces; other characters are passed over,
  // also inside a word. `word` is the word begun.
  ghost function Words(u: Alphabet, s: string, word: string): seq<string>
    decreases |s|
  {
    if s == "" then WordOf(word)
    else if u.letterOrDigit(s[0]) then Words(u, s[1..], word + [s[0]])
    else if u.space(s[0]) then WordOf(word) + Words(u, s[1..], "")
    else Words(u, s[1..], word)
  }

  ghost function WordOf(word: string): seq<string> {
    if word == "" then [] else [word]
  }

  ghost function Spaced(words: seq<string>): string {
    if words == [] then "" else if |words| == 1 then words[0] else words[0] + " " + Spaced(words[1..])
  }

  ghost predicate Letters(u: Alphabet, word: string) {
    forall i :: 0 <= i < |word| ==> u.letterOrDigit(word[i])
  }

  ghost predicate AllWords(u: Alphabet, words: seq<string>) {
    forall i :: 0 <= i < |words| ==> words[i] != "" && Letters(u, words[i])
  }

  lemma {:induction false} WordsAreWords(u: Alphabet, s: string, word: string)
    requires Letters(u, word)
    ensures AllWords(u, Words(u, s, word))
    decreases |s|
  {
    if s != "" {
      WordsAreWords(u, s[1..], if u.letterOrDigit(s[0]) then word + [s[0]] else if u.space(s[0]) then "" else word);
    }
  }

  lemma {:induction false} TrimEndJoins(u: Alphabet, a: string, b: string)
    ensures TrimEnd(u, a + b) == if TrimEnd(u, b) != "" then a + TrimEnd(u, b) else TrimEnd(u, a)
    decreases |b|
  {
    if b == "" {
      assert a + b == a;
    } else {
      assert (a + b)[|a + b| - 1] == b[|b| - 1];
      if u.space(b[|b| - 1]) {
        assert (a + b)[..|a + b| - 1] == a + b[..|b| - 1];
        TrimEndJoins(u, a, b[..|b| - 1]);
      }
    }
  }

  lemma SpacedIsEmpty(u: Alphabet, words: seq<string>)
    requires AllWords(u, words)
    ensures Spaced(words) == "" <==> words == []
  {
  }

  lemma TrimmedWord(u: Alphabet, word: string)
    requires Sensible(u) && Letters(u, word)
    ensures TrimEnd(u, word) == word && TrimEnd(u, " ") == ""
  {
  }

  lemma SpacedCons(word: string, rest: seq<string>)
    ensures Spaced([word] + rest) == if rest == [] then word else word + " " + Spaced(rest)
  {
    assert ([word] + rest)[1..] == rest;
  }

  // A word is over, and what follows it comes out as `rest`.
  lemma WordEnds(u: Alphabet, word: string, k: string, rest: seq<string>)
    requires Sensible(u) && Letters(u, word) && AllWords(u, rest) && TrimEnd(u, k) == Spaced(rest)
    ensures TrimEnd(u, word + ((if word == "" then "" else " ") + k)) == Spaced(WordOf(word) + rest)
  {
    hide Sensible, Letters, AllWords, TrimEnd, Spaced;
    if word == "" {
      assert "" + ("" + k) == k && WordOf(word) + rest == rest;
    } else {
      SpacedIsEmpty(u, rest);
      TrimEndJoins(u, word + " ", k);
      TrimEndJoins(u, word, " ");
      TrimmedWord(u, word);
      SpacedCons(word, rest);
      assert word + (" " + k) == (word + " ") + k;
    }
  }

  // The loop and the trim leave the words with one space between them.
  lemma {:induction false} KeptIsSpaced(u: Alphabet, s: string, word: string)
    requires Sensible(u) && Letters(u, word)
    ensures TrimEnd(u, word + Kept(u, s, word == "")) == Spaced(Words(u, s, word))
    decreases |s|
  {
    hide Spaced, TrimEnd, Sensible, AllWords;
    if s == "" {
      LastWord(u, word);
    } else if u.letterOrDigit(s[0]) {
      KeptIsSpaced(u, s[1..], word + [s[0]]);
      assert word + ([s[0]] + Kept(u, s[1..], false)) == (word + [s[0]]) + Kept(u, s[1..], false);
    } else if u.space(s[0]) {
      KeptIsSpaced(u, s[1..], "");
      WordsAreWords(u, s[1..], "");
      assert "" + Kept(u, s[1..], true) == Kept(u, s[1..], true);
      WordEnds(u, word, Kept(u, s[1..], true), Words(u, s[1..], ""));
    } else {
      KeptIsSpaced(u, s[1..], word);
    }
  }

  lemma LastWord(u: Alphabet, word: string)
    requires Sensible(u) && Letters(u, word)
    ensures TrimEnd(u, word + "") == Spaced(WordOf(word))
  {
    assert word + "" == word;
  }

  lemma KeyIsSpacedWords(u: Alphabet, s: string)
    requires Sensible(u)
    ensures Normalized(u, s) == Spaced(Words(u, Lowered(u, s), ""))
  {
    var k := Kept(u, Lowered(u, s), true);
    assert "" + k == k;
    KeptIsSpaced(u, Lowered(u, s), "");
    KeptIsClean(u, Lowered(u, s), true);
    TrimEndCleans(u, k);
    var t := TrimEnd(u, k);
    assert t != "" ==> t[0] == k[0] && !u.space(t[0]);
  }

  lemma FirstWord(u: Alphabet, words: seq<string>)
    requires Sensible(u) && AllWords(u, words) && words != []
    ensures words[0] <= Spaced(words)
    ensures |words| > 1 ==> |Spaced(words)| > |words[0]| && Spaced(words)[|words[0]|] == ' '
    ensures |words| > 1 ==> Spaced(words)[|words[0]| + 1..] == Spaced(words[1..])
    ensures |words| == 1 ==> Spaced(words) == words[0]
  {
  }

  lemma {:induction false} SpacedApart(u: Alphabet, a: seq<string>, b: seq<string>)
    requires Sensible(u) && AllWords(u, a) && AllWords(u, b) && Spaced(a) == Spaced(b)
    ensures a == b
    decreases |a|
  {
    SpacedIsEmpty(u, a);
    SpacedIsEmpty(u, b);
    if a != [] {
      FirstWord(u, a);
      FirstWord(u, b);
      assert Letters(u, a[0]) && Letters(u, b[0]);
      SameFirst(u, Spaced(a), a[0], b[0], |a| == 1, |b| == 1);
      assert |a| == 1 <==> |b| == 1;
      if |a| > 1 {
        SpacedApart(u, a[1..], b[1..]);
        assert a == [a[0]] + a[1..] && b == [b[0]] + b[1..];
      } else {
        assert a == [a[0]] && b == [b[0]];
      }
    }
  }

  // A word ends at the first space.
  lemma SameFirst(u: Alphabet, s: string, v: string, w: string, allOfV: bool, allOfW: bool)
    requires Sensible(u) && Letters(u, v) && Letters(u, w) && v <= s && w <= s
    requires if allOfV then s == v else |s| > |v| && s[|v|] == ' '
    requires if allOfW then s == w else |s| > |w| && s[|w|] == ' '
    ensures v == w
  {
    assert v == s[..|v|] && w == s[..|w|];
  }

  // Two texts have the same key exactly when, in lower case, they are the same words
  // in the same order.
  lemma SameKeySameWords(u: Alphabet, a: string, b: string)
    requires Sensible(u)
    ensures Normalized(u, a) == Normalized(u, b) <==> Words(u, Lowered(u, a), "") == Words(u, Lowered(u, b), "")
    ensures Normalized(u, a) == "" <==> Words(u, Lowered(u, a), "") == []
  {
    KeyIsSpacedWords(u, a);
    KeyIsSpacedWords(u, b);
    WordsAreWords(u, Lowered(u, a), "");
    WordsAreWords(u, Lowered(u, b), "");
    SpacedIsEmpty(u, Words(u, Lowered(u, a), ""));
    if Normalized(u, a) == Normalized(u, b) {
      SpacedApart(u, Words(u, Lowered(u, a), ""), Words(u, Lowered(u, b), ""));
    }
  }

  // --- what a key does not tell apart ---

  lemma {:induction false} DropsPunctuation(u: Alphabet, a: string, p: char, b: string, lastSpace: bool)
    requires !u.letterOrDigit(p) && !u.space(p)
    ensures Kept(u, a + [p] + b, lastSpace) == Kept(u, a + b, lastSpace)
    decreases |a|
  {
    if a == "" {
      assert a + [p] + b == [p] + b && a + b == b;
    } else {
      assert (a + [p] + b)[1..] == a[1..] + [p] + b && (a + b)[1..] == a[1..] + b;
      DropsPunctuation(u, a[1..], p, b,
                       if u.letterOrDigit(a[0]) then false else if u.space(a[0]) then true else lastSpace);
    }
  }

  // The same joke in other capitals or with other punctuation has the same key.
  lemma SameJoke(u: Alphabet, a: string, p: char, b: string)
    requires Sensible(u)
    ensures Normalized(u, Lowered(u, a)) == Normalized(u, a)
    ensures !u.letterOrDigit(u.lower(p)) && !u.space(u.lower(p)) ==> Normalized(u, a + [p] + b) == Normalized(u, a + b)
  {
    assert Lowered(u, Lowered(u, a)) == Lowered(u, a);
    if !u.letterOrDigit(u.lower(p)) && !u.space(u.lower(p)) {
      DropsPunctuation(u, Lowered(u, a), u.lower(p), Lowered(u, b), true);
      assert Lowered(u, a + [p] + b) == Lowered(u, a) + [u.lower(p)] + Lowered(u, b);
      assert Lowered(u, a + b) == Lowered(u, a) + Lowered(u, b);
    }
  }

  // --- the queue ---

  datatype Status = Pending | Reviewed

  // `source` is the round that put it forward first.
  datatype Candidate = Candidate(text: string, author: string, votes: nat, status: Status, source: nat)

  // An answer a final round has put forward.
  datatype Found = Found(text: string, author: string, votes: nat, source: nat)

  type Candidates = map<string, Candidate>

  // The upsert: a new key is queued, a key still pending keeps the higher count,
  // a reviewed one is left alone.
  function Merge(queue: Candidates, key: string, f: Found): Candidates {
    if key !in queue then queue[key := Candidate(f.text, f.author, f.votes, Pending, f.source)]
    else if queue[key].status == Pending
    then queue[key := queue[key].(votes := if queue[key].votes >= f.votes then queue[key].votes else f.votes)]
    else queue
  }

  function MergeAll(u: Alphabet, queue: Candidates, found: seq<Found>): Candidates
    decreases |found|
  {
    if found == [] then queue
    else
      var key := Normalized(u, found[0].text);
      MergeAll(u, if key == "" then queue else Merge(queue, key, found[0]), found[1..])
  }

  // The upserts that change a row.
  function Promotions(u: Alphabet, queue: Candidates, found: seq<Found>): nat
    decreases |found|
  {
    if found == [] then 0
    else
      var key := Normalized(u, found[0].text);
      if key == "" then Promotions(u, queue, found[1..])
      else (if key !in queue || queue[key].status == Pending then 1 else 0) + Promotions(u, Merge(queue, key, found[0]), found[1..])
  }

  method PromoteRoundCandidates(u: Alphabet, queue: Candidates, found: seq<Found>) returns (out: Candidates, promoted: nat)
    ensures out == MergeAll(u, queue, found)
    ensures promoted == Promotions(u, queue, found)
  {
    out, promoted := queue, 0;
    var i := 0;
    while i < |found|
      invariant i <= |found| && MergeAll(u, queue, found) == MergeAll(u, out, found[i..])
      invariant Promotions(u, queue, found) == promoted + Promotions(u, out, found[i..])
    {
      assert found[i..][0] == found[i] && found[i..][1..] == found[i + 1..];
      var key := NormalizeCandidateText(u, found[i].text);
      if key != "" {
        if key !in out || out[key].status == Pending {
          promoted := promoted + 1;
        }
        out := Merge(out, key, found[i]);
      }
      i := i + 1;
    }
  }

  // The most votes any answer under the key has had.
  function Most(u: Alphabet, found: seq<Found>, key: string, votes: nat): nat
    decreases |found|
  {
    if found == [] then votes
    else Most(u, found[1..], key, if Normalized(u, found[0].text) == key && found[0].votes > votes then found[0].votes else votes)
  }

  // However often and in whatever order rounds are harvested, a pending key ends
  // with the most votes seen for it, a reviewed one is untouched, and merging takes
  // no key out.
  lemma {:induction false} QueueKeepsTheMost(u: Alphabet, queue: Candidates, found: seq<Found>, key: string)
    requires key in queue
    ensures key in MergeAll(u, queue, found)
    ensures MergeAll(u, queue, found)[key]
         == if queue[key].status == Pending && key != "" then queue[key].(votes := Most(u, found, key, queue[key].votes)) else queue[key]
    decreases |found|
  {
    if found != [] {
      var k := Normalized(u, found[0].text);
      QueueKeepsTheMost(u, if k == "" then queue else Merge(queue, k, found[0]), found[1..], key);
    }
  }

  lemma {:induction false} EveryFindIsQueued(u: Alphabet, queue: Candidates, found: seq<Found>, i: nat)
    requires i < |found| && Normalized(u, found[i].text) != ""
    ensures var key := Normalized(u, found[i].text);
            key in MergeAll(u, queue, found)
            && (MergeAll(u, queue, found)[key].status == Pending ==> MergeAll(u, queue, found)[key].votes >= found[i].votes)
    decreases |found|
  {
    var k := Normalized(u, found[0].text);
    var next := if k == "" then queue else Merge(queue, k, found[0]);
    if i == 0 {
      QueueKeepsTheMost(u, next, found[1..], k);
      MostGrows(u, found[1..], k, next[k].votes);
    } else {
      EveryFindIsQueued(u, next, found[1..], i - 1);
    }
  }

  lemma {:induction false} MostGrows(u: Alphabet, found: seq<Found>, key: string, votes: nat)
    ensures Most(u, found, key, votes) >= votes
    decreases |found|
  {
    if found != [] {
      MostGrows(u, found[1..], key, if Normalized(u, found[0].text) == key && found[0].votes > votes then found[0].votes else votes);
    }
  }

  // --- withdrawal ---

  // With a group its rounds go, and with a round the candidates it put forward first.
  function Withdraw(queue: Candidates, rounds: set<nat>): Candidates {
    map key | key in queue && queue[key].source !in rounds :: queue[key]
  }

  // What a find is credited with when it is the first.
  datatype Credit = Credit(text: string, author: string, source: nat)

  // What a key is queued under: what it is queued under already, or the first find
  // with the key.
  ghost function Origin(u: Alphabet, queue: Candidates, found: seq<Found>, key: string): Option<Credit>
    decreases |found|
  {
    if key in queue then Some(Credit(queue[key].text, queue[key].author, queue[key].source))
    else if found == [] then None
    else if key != "" && Normalized(u, found[0].text) == key
    then Some(Credit(found[0].text, found[0].author, found[0].source))
    else Origin(u, queue, found[1..], key)
  }

  lemma {:induction false} QueuedUnderOrigin(u: Alphabet, queue: Candidates, found: seq<Found>, key: string)
    ensures var merged := MergeAll(u, queue, found);
            (key in merged <==> Origin(u, queue, found, key).Some?)
            && (key in merged ==> Some(Credit(merged[key].text, merged[key].author, merged[key].source)) == Origin(u, queue, found, key))
    decreases |found|
  {
    if found != [] {
      var k := Normalized(u, found[0].text);
      var next := if k == "" then queue else Merge(queue, k, found[0]);
      QueuedUnderOrigin(u, next, found[1..], key);
      if key !in next {
        SameOrigin(u, queue, next, found[1..], key);
      }
    }
  }

  lemma {:induction false} SameOrigin(u: Alphabet, a: Candidates, b: Candidates, found: seq<Found>, key: string)
    requires key !in a && key !in b
    ensures Origin(u, a, found, key) == Origin(u, b, found, key)
    decreases |found|
  {
    if found != [] {
      SameOrigin(u, a, b, found[1..], key);
    }
  }

  // When a group is deleted a candidate goes exactly if the group's round was the
  // first to put it forward, whatever votes later rounds of other groups gave it; the
  // others keep theirs, and the text and author of the first.
  lemma FirstFindDecides(u: Alphabet, queue: Candidates, found: seq<Found>, rounds: set<nat>, key: string)
    ensures var merged := MergeAll(u, queue, found); var left := Withdraw(merged, rounds);
            var origin := Origin(u, queue, found, key);
            (key in left <==> origin.Some? && origin.value.source !in rounds)
            && (key in left ==> left[key] == merged[key] && left[key].text == origin.value.text && left[key].author == origin.value.author)
  {
    QueuedUnderOrigin(u, queue, found, key);
  }
}
