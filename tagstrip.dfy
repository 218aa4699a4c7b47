/** The clean-up applied to the matched sign-in text: every non-greedy
    `<...>` tag that closes on the same line, and every `&shy;` entity, is
    removed in one left-to-right pass, as a regular-expression substitution
    with an empty replacement does it. */
module TagStrip {
  import opened Host

  /** s begins with the soft-hyphen entity. */
  predicate StartsWithShy(s: string)
  {
    |s| >= 5 && s[0] == '&' && s[1] == 's' && s[2] == 'h' && s[3] == 'y' && s[4] == ';'
  }

  /** True when some '>' in t is reached before any newline: the shortest
      `.*?>` that can follow a '<' standing just before t. */
  ghost predicate Closes(t: string)
  {
    exists j :: 0 <= j < |t| && t[j] == '>' && forall n :: 0 <= n < j ==> t[n] != '\n'
  }

  /** Where the tag opened just before t closes: the first '>' of t, provided
      no newline precedes it. */
  function CloseOffset(t: string): (r: Option<nat>)
    ensures r.Some? ==> r.value < |t|
  {
    if t == [] then None
    else if t[0] == '\n' then None
    else if t[0] == '>' then Some(0)
    else
      match CloseOffset(t[1..])
      case None => None
      case Some(k) => Some(k + 1)
  }

  /** The offset found is a '>' with neither a '>' nor a newline before it. */
  lemma {:induction false} CloseOffsetFirst(t: string)
    ensures var r := CloseOffset(t);
            r.Some? ==> t[r.value] == '>' && forall n :: 0 <= n < r.value ==> t[n] != '>' && t[n] != '\n'
    decreases |t|
  {
    if t != [] && t[0] != '\n' && t[0] != '>' {
      CloseOffsetFirst(t[1..]);
      if CloseOffset(t[1..]).Some? {
        var k := CloseOffset(t[1..]).value;
        forall n | 0 < n <= k ensures t[n] == t[1..][n - 1] {
        }
      }
    }
  }

  /** A tag that cannot close on its line stays unclosed when the
      characters before it, none of them a newline, are dropped. */
  lemma UnclosedDrop(t: string, k: nat)
    requires !Closes(t) && k <= |t|
    requires forall n :: 0 <= n < k ==> t[n] != '\n'
    ensures !Closes(t[k..])
  {
  }

  /** A character other than '>' put before text in which no tag closes
      leaves it so. */
  lemma UnclosedCons(c: char, t: string)
    requires c != '>' && !Closes(t)
    ensures !Closes([c] + t)
  {
    if Closes([c] + t) {
      var j :| 0 <= j < |[c] + t| && ([c] + t)[j] == '>' && forall n :: 0 <= n < j ==> ([c] + t)[n] != '\n';
      assert t[j - 1] == '>';
      forall n | 0 <= n < j - 1 ensures t[n] != '\n' {
        assert t[n] == ([c] + t)[n + 1];
      }
    }
  }

  /** CloseOffset finds an offset exactly when the tag closes. */
  lemma {:induction false} CloseOffsetCloses(t: string)
    ensures CloseOffset(t).Some? <==> Closes(t)
    decreases |t|
  {
    if t == [] {
    } else if t[0] == '\n' {
    } else if t[0] == '>' {
      assert t[0] == '>';
    } else {
      CloseOffsetCloses(t[1..]);
      if Closes(t) {
        var j :| 0 <= j < |t| && t[j] == '>' && forall n :: 0 <= n < j ==> t[n] != '\n';
        assert t[1..][j - 1] == '>';
        assert Closes(t[1..]);
      } else {
        UnclosedDrop(t, 1);
      }
    }
  }

  /** s with its same-line tags and soft-hyphen entities removed. */
  function Strip(s: string): (r: string)
    ensures |r| <= |s|
    decreases |s|
  {
    if s == [] then []
    else if s[0] == '<' && CloseOffset(s[1..]).Some? then Strip(s[CloseOffset(s[1..]).value + 2..])
    else if StartsWithShy(s) then Strip(s[5..])
    else [s[0]] + Strip(s[1..])
  }

  /** Characters are only ever dropped, never added. */
  lemma {:induction false} StripOnlyDrops(s: string)
    ensures multiset(Strip(s)) <= multiset(s)
    decreases |s|
  {
    if s == [] {
    } else if s[0] == '<' && CloseOffset(s[1..]).Some? {
      var j := CloseOffset(s[1..]).value + 2;
      assert s == s[..j] + s[j..];
      StripOnlyDrops(s[j..]);
    } else if StartsWithShy(s) {
      assert s == s[..5] + s[5..];
      StripOnlyDrops(s[5..]);
    } else {
      assert s == [s[0]] + s[1..];
      StripOnlyDrops(s[1..]);
    }
  }

  /** Text without a newline counts none. */
  lemma NoNewlines(p: string)
    requires forall n :: 0 <= n < |p| ==> p[n] != '\n'
    ensures multiset(p)['\n'] == 0
  {
    assert '\n' !in p;
  }

  /** The newlines of s are those of its two parts. */
  lemma NewlinesSplit(s: string, j: nat)
    requires j <= |s|
    ensures multiset(s)['\n'] == multiset(s[..j])['\n'] + multiset(s[j..])['\n']
  {
    assert s == s[..j] + s[j..];
  }

  /** The newlines of a character put before t. */
  lemma NewlinesCons(c: char, t: string)
    ensures multiset([c] + t)['\n'] == multiset(t)['\n'] + (if c == '\n' then 1 else 0)
  {
  }

  /** A tag that closes on its line, '<' and '>' included, holds no
      newline. */
  lemma TagHasNoNewline(s: string)
    requires s != [] && s[0] == '<' && CloseOffset(s[1..]).Some?
    ensures multiset(s[..CloseOffset(s[1..]).value + 2])['\n'] == 0
  {
    var t := s[1..];
    var j := CloseOffset(t).value + 2;
    CloseOffsetFirst(t);
    forall n | 0 <= n < j ensures s[..j][n] != '\n' {
      if 0 < n { assert s[n] == t[n - 1]; }
    }
    NoNewlines(s[..j]);
  }

  /** A closed tag holds no newline, so dropping it keeps the count. */
  lemma TagKeepsNewlines(s: string)
    requires s != [] && s[0] == '<' && CloseOffset(s[1..]).Some?
    requires var j := CloseOffset(s[1..]).value + 2;
      multiset(Strip(s[j..]))['\n'] == multiset(s[j..])['\n']
    ensures multiset(Strip(s))['\n'] == multiset(s)['\n']
  {
    var j := CloseOffset(s[1..]).value + 2;
    assert Strip(s) == Strip(s[j..]);
    TagHasNoNewline(s);
    NewlinesSplit(s, j);
  }

  /** The soft-hyphen entity holds no newline. */
  lemma ShyKeepsNewlines(s: string)
    requires StartsWithShy(s)
    requires multiset(Strip(s[5..]))['\n'] == multiset(s[5..])['\n']
    ensures multiset(Strip(s))['\n'] == multiset(s)['\n']
  {
    assert Strip(s) == Strip(s[5..]);
    assert multiset(s[..5])['\n'] == 0 by {
      assert s[..5] == "&shy;";
    }
    NewlinesSplit(s, 5);
  }

  /** A kept character keeps its newline, if it is one. */
  lemma CharKeepsNewlines(s: string)
    requires s != [] && !(s[0] == '<' && CloseOffset(s[1..]).Some?) && !StartsWithShy(s)
    requires multiset(Strip(s[1..]))['\n'] == multiset(s[1..])['\n']
    ensures multiset(Strip(s))['\n'] == multiset(s)['\n']
  {
    NewlinesCons(s[0], Strip(s[1..]));
    NewlinesCons(s[0], s[1..]);
    assert [s[0]] + s[1..] == s;
  }

  /** Newlines are never removed: a tag cannot span one and the entity holds
      none. */
  lemma {:induction false} StripKeepsNewlines(s: string)
    ensures multiset(Strip(s))['\n'] == multiset(s)['\n']
    decreases |s|
  {
    if s == [] {
    } else if s[0] == '<' && CloseOffset(s[1..]).Some? {
      StripKeepsNewlines(s[CloseOffset(s[1..]).value + 2..]);
      TagKeepsNewlines(s);
    } else if StartsWithShy(s) {
      StripKeepsNewlines(s[5..]);
      ShyKeepsNewlines(s);
    } else {
      StripKeepsNewlines(s[1..]);
      CharKeepsNewlines(s);
    }
  }

  /** No '<' of r is followed by a '>' on the same line. */
  ghost predicate TagFree(r: string)
  {
    forall i :: 0 <= i < |r| && r[i] == '<' ==> !Closes(r[i + 1..])
  }

  /** Stripping text in which no tag could close keeps it that way: the
      characters before the first newline contain no '>' and none is added. */
  lemma {:induction false} StripKeepsUnclosed(t: string)
    requires !Closes(t)
    ensures !Closes(Strip(t))
    decreases |t|
  {
    if t == [] {
    } else if t[0] == '\n' {
      assert Strip(t) == ['\n'] + Strip(t[1..]);
      CloseOffsetCloses(Strip(t));
    } else {
      assert t[0] != '>';
      UnclosedDrop(t, 1);
      if t[0] == '<' {
        CloseOffsetCloses(t[1..]);
        StripKeepsUnclosed(t[1..]);
        UnclosedCons('<', Strip(t[1..]));
      } else if StartsWithShy(t) {
        UnclosedDrop(t, 5);
        StripKeepsUnclosed(t[5..]);
      } else {
        StripKeepsUnclosed(t[1..]);
        UnclosedCons(t[0], Strip(t[1..]));
      }
    }
  }

  /** The stripped result holds no tag that closes on its own line. */
  lemma {:induction false} StripLeavesNoTag(s: string)
    ensures TagFree(Strip(s))
    decreases |s|
  {
    if s == [] {
    } else if s[0] == '<' && CloseOffset(s[1..]).Some? {
      StripLeavesNoTag(s[CloseOffset(s[1..]).value + 2..]);
    } else if StartsWithShy(s) {
      StripLeavesNoTag(s[5..]);
    } else {
      var r := Strip(s);
      var tail := Strip(s[1..]);
      StripLeavesNoTag(s[1..]);
      assert r == [s[0]] + tail;
      forall i | 0 <= i < |r| && r[i] == '<' ensures !Closes(r[i + 1..]) {
        if i == 0 {
          CloseOffsetCloses(s[1..]);
          StripKeepsUnclosed(s[1..]);
          assert r[1..] == tail;
        } else {
          assert tail[i - 1] == '<';
          assert r[i + 1..] == tail[i..];
        }
      }
    }
  }

  /** Text with no '<' and no '&' comes through unchanged. */
  lemma {:induction false} StripPlainText(s: string)
    requires forall i :: 0 <= i < |s| ==> s[i] != '<' && s[i] != '&'
    ensures Strip(s) == s
    decreases |s|
  {
    if s != [] {
      assert s[0] != '<' && s[0] != '&';
      StripPlainText(s[1..]);
      assert s == [s[0]] + s[1..];
    }
  }
}
