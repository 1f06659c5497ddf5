/** The page header's user badge: a display name and up to two initials. */
module Header {
  import opened Wrappers
  import opened Text
  import opened QuoteTypes

  const AnonymousName: string := "User"

  /**
   * `profile?.full_name || user?.email?.split('@')[0] || 'User'`: the full name when there is one,
   * else the part of the email before the first '@', else "User".
   */
  function DisplayName(profile: Option<Profile>, email: Option<string>): (r: string)
    ensures r != []
    ensures profile.Some? && profile.value.fullName.Some? && profile.value.fullName.value != []
            ==> r == profile.value.fullName.value
    ensures !(profile.Some? && profile.value.fullName.Some? && profile.value.fullName.value != []) ==>
              if email.Some? && email.value != [] && email.value[0] != '@' then
                && |r| <= |email.value| && r == email.value[..|r|] && '@' !in r
                && (|r| == |email.value| || email.value[|r|] == '@')
              else r == AnonymousName
  {
    var fullName := if profile.Some? && profile.value.fullName.Some? then profile.value.fullName.value else "";
    var local := if email.Some? then Split(email.value, '@')[0] else "";
    if fullName != "" then fullName
    else if local != "" then local
    else AnonymousName
  }

  /** `.map((n) => n[0]).join('')`: the first character of every word; an empty word gives nothing. */
  function Heads(words: seq<string>): (r: string)
    ensures |r| <= |words|
  {
    if words == [] then ""
    else (if words[0] == "" then "" else [words[0][0]]) + Heads(words[1..])
  }

  lemma {:induction false} HeadsAppend(a: seq<string>, b: seq<string>)
    ensures Heads(a + b) == Heads(a) + Heads(b)
  {
    if a == [] {
      assert a + b == b;
    } else {
      assert (a + b)[0] == a[0];
      assert (a + b)[1..] == a[1..] + b;
      HeadsAppend(a[1..], b);
    }
  }

  /** The empty words that repeated spaces produce contribute nothing. */
  lemma EmptyWordIgnored(a: seq<string>, b: seq<string>)
    ensures Heads(a + [""] + b) == Heads(a + b)
  {
    HeadsAppend(a + [""], b);
    HeadsAppend(a, [""]);
    HeadsAppend(a, b);
    assert [""][1..] == [];
  }

  /** The initials of a name: upper-cased first letters of its words, at most two. */
  function Initials(name: string): (r: string)
    ensures |r| <= 2
    ensures forall i :: 0 <= i < |r| ==> !('a' <= r[i] <= 'z')
    ensures var heads := Heads(Split(name, ' '));
      |r| == (if |heads| < 2 then |heads| else 2)
      && forall i :: 0 <= i < |r| ==> r[i] == ToUpperChar(heads[i])
  {
    Take(ToUpper(Heads(Split(name, ' '))), 2)
  }

  /** Two words separated by one space, or by two, give the same initials. */
  lemma TwoWordInitials(first: string, last: string)
    requires first != [] && last != []
    requires ' ' !in first && ' ' !in last
    ensures Initials(first + " " + last) == [ToUpperChar(first[0]), ToUpperChar(last[0])]
    ensures Initials(first + "  " + last) == [ToUpperChar(first[0]), ToUpperChar(last[0])]
  {
    assert JoinWith([first, last], ' ') == first + " " + last by {
      assert [first, last][1..] == [last];
    }
    SplitJoin([first, last], ' ');
    assert Heads([first, last]) == [first[0], last[0]] by {
      assert [first, last][1..] == [last];
      assert [last][1..] == [];
    }
    assert JoinWith([first, "", last], ' ') == first + "  " + last by {
      assert [first, "", last][1..] == ["", last];
      assert ["", last][1..] == [last];
    }
    SplitJoin([first, "", last], ' ');
    EmptyWordIgnored([first], [last]);
    assert [first] + [""] + [last] == [first, "", last];
    assert [first] + [last] == [first, last];
  }
}
