/** The members page: the founding members shown, and the accordion in
    which at most one card is expanded. */
module MembersPage {
  import opened Common

  datatype Category = Founding | Core | Volunteer

  /** A member card; the descriptive fields of the source are left out. */
  datatype Member = Member(id: string, name: string, role: string, category: Category)

  const MEMBERS := [
    Member("deepak-chauhan", "Deepak Chauhan", "Co-Founder", Founding),
    Member("rajni-dhani", "Rajni Dhani", "Co-Founder", Founding),
    Member("awaiting-approval", "Awaiting Approval", "Co-Founder", Founding),
    Member("ashish-tyagi", "Ashish Tyagi", "Co-Founder", Founding)
  ]

  /** `r` is `s` with some elements dropped, the rest in their order. */
  predicate IsSubsequence<T(==)>(r: seq<T>, s: seq<T>)
    decreases |s|
  {
    if r == [] then true
    else if s == [] then false
    else if r[0] == s[0] then IsSubsequence(r[1..], s[1..])
    else IsSubsequence(r, s[1..])
  }

  /** `members.filter(m => m.category === 'founding')`. */
  function FoundingMembers(ms: seq<Member>): (r: seq<Member>)
    ensures forall m | m in r :: m in ms && m.category == Founding
    ensures forall m | m in ms && m.category == Founding :: m in r
    ensures |r| <= |ms|
    decreases |ms|
  {
    if ms == [] then []
    else if ms[0].category == Founding then [ms[0]] + FoundingMembers(ms[1..])
    else FoundingMembers(ms[1..])
  }

  /** Each founding member is kept as often as it occurs, every other one dropped. */
  lemma {:induction false} FoundingMembersKeepsCount(ms: seq<Member>)
    ensures forall m :: multiset(FoundingMembers(ms))[m] ==
                          if m.category == Founding then multiset(ms)[m] else 0
    decreases |ms|
  {
    if ms != [] {
      FoundingMembersKeepsCount(ms[1..]);
      assert ms == [ms[0]] + ms[1..];
    }
  }

  /** The filter keeps the original order. */
  lemma {:induction false} FoundingMembersInOrder(ms: seq<Member>)
    ensures IsSubsequence(FoundingMembers(ms), ms)
    decreases |ms|
  {
    if ms != [] {
      FoundingMembersInOrder(ms[1..]);
      if ms[0].category != Founding {
        SubsequenceOfTail(FoundingMembers(ms[1..]), ms);
      }
    }
  }

  /** A subsequence of the tail is a subsequence of the whole. */
  lemma {:induction false} SubsequenceOfTail<T>(r: seq<T>, s: seq<T>)
    requires s != [] && IsSubsequence(r, s[1..])
    ensures IsSubsequence(r, s)
    decreases |s|, 0
  {
    if r != [] && r[0] == s[0] {
      SubsequenceDropHead(r, s[1..]);
    }
  }

  /** Dropping the first element of a subsequence keeps it one. */
  lemma {:induction false} SubsequenceDropHead<T>(r: seq<T>, s: seq<T>)
    requires r != [] && IsSubsequence(r, s)
    ensures IsSubsequence(r[1..], s)
    decreases |s|, 1
  {
    if r[0] == s[0] {
      SubsequenceOfTail(r[1..], s);
    } else {
      SubsequenceDropHead(r, s[1..]);
      SubsequenceOfTail(r[1..], s);
    }
  }

  /** Every member listed on the page is a founding member, so all are shown. */
  lemma AllMembersShown()
    ensures FoundingMembers(MEMBERS) == MEMBERS
  {
    assert MEMBERS[1..][1..][1..][1..] == [];
  }

  /** `expandedId === id ? null : id`. */
  function Toggled(expanded: Option<string>, id: string): (r: Option<string>)
    ensures r == Some(id) <==> expanded != Some(id)
    ensures r.None? <==> expanded == Some(id)
  {
    if expanded == Some(id) then None else Some(id)
  }

  /** Two toggles of one card collapse every card, unless that card was the
      expanded one, in which case it ends up expanded again. */
  lemma ToggleTwice(expanded: Option<string>, id: string)
    ensures Toggled(Toggled(expanded, id), id) == if expanded == Some(id) then Some(id) else None
  {
  }

  class MembersView {
    var expandedId: Option<string>

    constructor ()
      ensures expandedId.None?
    {
      expandedId := None;
    }

    predicate IsExpanded(id: string)
      reads this
    {
      expandedId == Some(id)
    }

    /** The ids of the expanded cards among `cards`: at most one. */
    function ExpandedCards(cards: seq<Member>): (ids: set<string>)
      reads this
      ensures forall id | id in ids :: IsExpanded(id)
      ensures forall i | 0 <= i < |cards| && IsExpanded(cards[i].id) :: cards[i].id in ids
      ensures |ids| <= 1
    {
      var ids := set i | 0 <= i < |cards| && IsExpanded(cards[i].id) :: cards[i].id;
      assert |ids| <= 1 by {
        if expandedId.Some? && expandedId.value in ids {
          assert ids == {expandedId.value};
        } else {
          assert ids == {};
        }
      }
      ids
    }

    /** `toggleMember`. */
    method ToggleMember(id: string)
      modifies this
      ensures expandedId == Toggled(old(expandedId), id)
    {
      expandedId := if expandedId == Some(id) then None else Some(id);
    }
  }
}
