/** Whole-word search over bytes, by which live games are matched to events. */
module WholeWord {
  import opened Platform

  type Byte = x: int | 0 <= x < 256

  function IsASCIILetter(b: Byte): bool {
    ('a' as int <= b <= 'z' as int) || ('A' as int <= b <= 'Z' as int)
  }

  predicate OccursAt(s: seq<Byte>, word: seq<Byte>, i: nat) {
    i + |word| <= |s| && s[i..i + |word|] == word
  }

  /** An occurrence with no ASCII letter directly before or after it. */
  predicate WholeWordAt(s: seq<Byte>, word: seq<Byte>, i: nat) {
    && OccursAt(s, word, i)
    && (i == 0 || !IsASCIILetter(s[i - 1]))
    && (i + |word| == |s| || !IsASCIILetter(s[i + |word|]))
  }

  /** strings.Index: the first occurrence, or None. */
  function Index(s: seq<Byte>, word: seq<Byte>): (at: Option<nat>)
    ensures at.None? <==> forall i: nat :: !OccursAt(s, word, i)
    ensures at.Some? ==> OccursAt(s, word, at.value) && forall i: nat | i < at.value :: !OccursAt(s, word, i)
  {
    IndexFrom(s, word, 0)
  }

  function IndexFrom(s: seq<Byte>, word: seq<Byte>, from: nat): (at: Option<nat>)
    requires from <= |s|
    ensures at.None? <==> forall i: nat | from <= i :: !OccursAt(s, word, i)
    ensures at.Some? ==> from <= at.value && OccursAt(s, word, at.value)
                         && forall i: nat | from <= i < at.value :: !OccursAt(s, word, i)
    decreases |s| - from
  {
    if OccursAt(s, word, from) then Some(from)
    else if from == |s| then None
    else IndexFrom(s, word, from + 1)
  }

  lemma OccursInRest(s: seq<Byte>, word: seq<Byte>, i: nat, k: nat)
    requires i <= |s|
    ensures OccursAt(s[i..], word, k) <==> OccursAt(s, word, i + k)
  {
    if i + k + |word| <= |s| {
      assert s[i..][k..k + |word|] == s[i + k..i + k + |word|];
    }
  }

  /** True exactly when some occurrence is whole; resuming one past the last occurrence skips none. */
  method ContainsWholeWord(s: seq<Byte>, word: seq<Byte>) returns (found: bool)
    ensures found <==> exists i: nat :: WholeWordAt(s, word, i)
  {
    var i := 0;
    while i <= |s| - |word|
      invariant 0 <= i <= |s| + 1
      invariant forall k: nat | k < i :: !WholeWordAt(s, word, k)
      decreases |s| - i
    {
      forall k: nat { OccursInRest(s, word, i, k); }
      var idx := Index(s[i..], word);
      if idx.None? {
        forall k: nat | i <= k ensures !OccursAt(s, word, k) {
          assert !OccursAt(s[i..], word, k - i);
        }
        return false;
      }
      var at := idx.value + i;
      forall k: nat | i <= k < at ensures !OccursAt(s, word, k) {
        assert !OccursAt(s[i..], word, k - i);
      }
      var end := at + |word|;
      var leftOK := at == 0 || !IsASCIILetter(s[at - 1]);
      var rightOK := end == |s| || !IsASCIILetter(s[end]);
      if leftOK && rightOK {
        assert WholeWordAt(s, word, at);
        return true;
      }
      i := at + 1;
    }
    return false;
  }

  predicate Contains(s: seq<Byte>, word: seq<Byte>) {
    exists i | 0 <= i <= |s| :: WholeWordAt(s, word, i)
  }

  /** FindByTeams over lower-cased names: some event naming both teams, if there is one. */
  method FindByTeams(events: map<Id, seq<Byte>>, home: seq<Byte>, away: seq<Byte>) returns (event: Option<Id>)
    ensures event.None? <==> forall e | e in events :: !(Contains(events[e], home) && Contains(events[e], away))
    ensures event.Some? ==> 
              && event.value in events && Contains(events[event.value], home) && Contains(events[event.value], away)
  {
    var rest := events.Keys;
    while rest != {}
      invariant rest <= events.Keys
      invariant forall e | e in events && e !in rest :: !(Contains(events[e], home) && Contains(events[e], away))
      decreases rest
    {
      var e :| e in rest;
      rest := rest - {e};
      var hasHome := ContainsWholeWord(events[e], home);
      if hasHome {
        var hasAway := ContainsWholeWord(events[e], away);
        if hasAway {
          return Some(e);
        }
      }
    }
    return None;
  }

  /** The empty word is found exactly where no letter touches some position. */
  lemma EmptyWord(s: seq<Byte>)
    ensures Contains(s, []) <==>
              s == [] || !IsASCIILetter(s[0]) || !IsASCIILetter(s[|s| - 1])
              || exists k :: 0 < k < |s| && !IsASCIILetter(s[k - 1]) && !IsASCIILetter(s[k])
  {
    forall i: nat | i <= |s| ensures OccursAt(s, [], i) {}
    if k :| 0 < k < |s| && !IsASCIILetter(s[k - 1]) && !IsASCIILetter(s[k]) {
      assert WholeWordAt(s, [], k);
    } else if s == [] || !IsASCIILetter(s[0]) {
      assert WholeWordAt(s, [], 0);
    } else if !IsASCIILetter(s[|s| - 1]) {
      assert WholeWordAt(s, [], |s|);
    }
  }

  /**
   A name that extends a team's name by a separate word still matches: "kansas"
   is found in "kansas state", although the comment at the code says otherwise.
   It is rejected when the extension starts with a letter and no other occurrence is whole.
   */
  lemma LongerNameMatches(team: seq<Byte>, more: seq<Byte>)
    ensures more != [] && !IsASCIILetter(more[0]) ==> Contains(team + more, team)
    ensures more != [] && IsASCIILetter(more[0]) ==>
              (Contains(team + more, team) <==> exists i | 0 < i <= |more| :: WholeWordAt(team + more, team, i))
  {
    assert (team + more)[0..|team|] == team;
    assert more != [] && !IsASCIILetter(more[0]) ==> WholeWordAt(team + more, team, 0);
  }

  /** The letters are the bytes of A to Z and of a to z. */
  lemma LetterExactly(b: Byte)
    ensures IsASCIILetter(b) <==> 65 <= b <= 90 || 97 <= b <= 122
  {}

  /** A lower-case name is not found where a lower-case letter is joined to it, before or after. */
  lemma JoinedNameIsNotFound(team: seq<Byte>, letter: Byte)
    requires team != [] && forall i | 0 <= i < |team| :: 97 <= team[i] <= 122
    requires 97 <= letter <= 122
    ensures !Contains([letter] + team, team) && !Contains(team + [letter], team)
  {
    var s, t := [letter] + team, team + [letter];
    forall i | 0 <= i <= |s| ensures !WholeWordAt(s, team, i) && !WholeWordAt(t, team, i) {
      if i == 0 {
        assert s[|team|] == team[|team| - 1] && t[|team|] == letter;
      } else if i == 1 {
        assert s[0] == letter && t[0] == team[0];
      }
    }
  }
}
