/**
 * The roster page: the name search, the star rating, the role label and icon
 * with their fallbacks, and the add-member form with its state.
 */
module Members {
  import opened Wrappers
  import opened JsString
  import opened Types
  import opened Constants

  // ---------------------------------------------------------------------------
  // Search

  /** A member is shown when its lower-cased name contains the lower-cased term. */
  predicate Matches(m: Member, term: string): (b: bool)
    ensures b <==> exists i :: OccursAt(Lower(m.name), Lower(term), i)
  {
    IncludesIff(Lower(m.name), Lower(term));
    Includes(Lower(m.name), Lower(term))
  }

  /** `filteredMembers`: the members that match the search term, in roster order. */
  function FilterMembers(members: seq<Member>, term: string): (r: seq<Member>)
    ensures |r| <= |members|
    ensures forall i :: 0 <= i < |r| ==> Matches(r[i], term)
  {
    if members == [] then []
    else if Matches(members[0], term) then [members[0]] + FilterMembers(members[1..], term)
    else FilterMembers(members[1..], term)
  }

  /** `a` is `b` with some entries taken out, the rest in their order. */
  ghost predicate IsSubsequence<T>(a: seq<T>, b: seq<T>)
    decreases |b|
  {
    if a == [] then true
    else if b == [] then false
    else (a[0] == b[0] && IsSubsequence(a[1..], b[1..])) || IsSubsequence(a, b[1..])
  }

  /** The filter keeps roster order: its result is a subsequence of the roster. */
  lemma {:induction false} FilterIsSubsequence(members: seq<Member>, term: string)
    ensures IsSubsequence(FilterMembers(members, term), members)
  {
    if members != [] {
      FilterIsSubsequence(members[1..], term);
      var r := FilterMembers(members, term);
      if Matches(members[0], term) {
        assert r[0] == members[0] && r[1..] == FilterMembers(members[1..], term);
      }
    }
  }

  /**
   * The filter keeps every occurrence of a matching member and drops every
   * occurrence of a member that does not match.
   */
  lemma {:induction false} FilterCounts(members: seq<Member>, term: string, m: Member)
    ensures multiset(FilterMembers(members, term))[m]
            == if Matches(m, term) then multiset(members)[m] else 0
  {
    if members != [] {
      FilterCounts(members[1..], term, m);
      assert members == [members[0]] + members[1..];
    }
  }

  /** A member is shown exactly when it is on the roster and matches the term. */
  lemma FilterMembership(members: seq<Member>, term: string, m: Member)
    ensures m in FilterMembers(members, term) <==> m in members && Matches(m, term)
  {
    FilterCounts(members, term, m);
    assert m in members <==> multiset(members)[m] > 0;
    assert m in FilterMembers(members, term) <==> multiset(FilterMembers(members, term))[m] > 0;
  }

  /** An empty search shows the whole roster. */
  lemma {:induction false} FilterEmptyTerm(members: seq<Member>)
    ensures FilterMembers(members, "") == members
  {
    if members != [] {
      FilterEmptyTerm(members[1..]);
    }
  }

  /** Two terms that agree once lower-cased select the same members ("ALI" and "ali"). */
  lemma {:induction false} FilterCaseInsensitive(members: seq<Member>, t1: string, t2: string)
    requires Lower(t1) == Lower(t2)
    ensures FilterMembers(members, t1) == FilterMembers(members, t2)
  {
    if members != [] {
      FilterCaseInsensitive(members[1..], t1, t2);
    }
  }

  /** Searching for a term is the same as searching for it in lower case. */
  lemma FilterLowerTerm(members: seq<Member>, term: string)
    ensures FilterMembers(members, Lower(term)) == FilterMembers(members, term)
  {
    LowerIdempotent(term);
    FilterCaseInsensitive(members, Lower(term), term);
  }

  // ---------------------------------------------------------------------------
  // Star rating

  /** The number of stars drawn on a member card. */
  const StarSlots := 5

  /** `Math.ceil(level / 2)`: the least integer whose double is at least `level`. */
  function CeilHalf(level: int): (r: int)
    ensures 2 * r - 2 < level <= 2 * r
  {
    (level + 1) / 2
  }

  /** The card's stars, left to right: star `i` is lit when `i < ceil(level / 2)`. */
  function Stars(level: int): (s: seq<bool>)
    ensures |s| == StarSlots
    ensures forall i, j :: 0 <= i < j < |s| && s[j] ==> s[i]
  {
    seq(StarSlots, i => i < CeilHalf(level))
  }

  function CountLit(s: seq<bool>): nat {
    if s == [] then 0 else CountLit(s[..|s| - 1]) + (if s[|s| - 1] then 1 else 0)
  }

  function Clamp(x: int, lo: int, hi: int): int
    requires lo <= hi
  {
    if x < lo then lo else if x > hi then hi else x
  }

  /** A row of `n` stars lit below position `k` has `k` lit, cut to `0..n`. */
  lemma {:induction false} CountLitPrefix(n: nat, k: int)
    ensures CountLit(seq(n, i => i < k)) == Clamp(k, 0, n)
  {
    if n > 0 {
      var s := seq(n, i => i < k);
      assert s[..n - 1] == seq(n - 1, i => i < k);
      CountLitPrefix(n - 1, k);
    }
  }

  /**
   * The lit-star count is `ceil(level / 2)` cut to the five stars drawn; for a
   * level the slider allows (1 to 10) it is `ceil(level / 2)` itself, between 1 and 5.
   */
  lemma LitStars(level: int)
    ensures CountLit(Stars(level)) == Clamp(CeilHalf(level), 0, StarSlots)
    ensures 1 <= level <= 10 ==> CountLit(Stars(level)) == CeilHalf(level)
    ensures 1 <= level <= 10 ==> 1 <= CountLit(Stars(level)) <= StarSlots
  {
    CountLitPrefix(StarSlots, CeilHalf(level));
  }

  /** A higher level never lights fewer stars. */
  lemma LitStarsMonotone(l1: int, l2: int)
    requires l1 <= l2
    ensures CountLit(Stars(l1)) <= CountLit(Stars(l2))
  {
    LitStars(l1);
    LitStars(l2);
  }

  // ---------------------------------------------------------------------------
  // Role label and icon

  /** `t.roles[member.role] || member.role`: the translation, or the raw role string. */
  function RoleLabel(lang: Lang, r: Role): (shown: string)
    ensures shown != []
  {
    var table := RoleLabels(lang);
    var key := RoleName(r);
    if key in table && table[key] != "" then table[key] else key
  }

  /** `ROLE_ICONS[member.role] || ROLE_ICONS['Recruit']`. */
  function RoleIcon(r: Role): (i: Icon)
    ensures !IsEnglish(r) ==> i == User
  {
    TableKeys();
    var key := RoleName(r);
    if key in RoleIcons then RoleIcons[key] else RoleIcons["Recruit"]
  }

  /** In English every role, of either language, is shown by its own name. */
  lemma EnglishLabelIsName(r: Role)
    ensures RoleLabel(En, r) == RoleName(r)
  {
    TableKeys();
  }

  /**
   * In Arabic every role is shown by the Arabic role name: an English role
   * through the table, an Arabic role through the fallback.
   */
  lemma ArabicLabelIsArabicName(r: Role)
    ensures RoleLabel(Ar, r) == RoleName(ArabicOf(r))
  {
    TableKeys();
  }

  /**
   * English roles get their own, pairwise distinct icons; every Arabic role
   * falls back to the icon of `Recruit`.
   */
  lemma RoleIconFallback(r: Role, r': Role)
    ensures !IsEnglish(r) ==> RoleIcon(r) == User
    ensures IsEnglish(r) && IsEnglish(r') && r != r' ==> RoleIcon(r) != RoleIcon(r')
    ensures r == Captain ==> RoleIcon(r) == Crown
  {
    TableKeys();
  }

  // ---------------------------------------------------------------------------
  // Add-member form

  /** The form's `Partial<Member>`: the role and the level may be absent. */
  datatype Draft = Draft(name: string, role: Option<Role>, level: Option<int>)

  /** The form's initial (and reset) state: no name, `Recruit`, level 5. */
  const InitialDraft := Draft("", Some(Recruit), Some(5))

  /** `newMember.role || 'Recruit'`. */
  function RoleOrDefault(role: Option<Role>): (r: Role)
    ensures r == Recruit || role == Some(r)
    ensures role.Some? ==> r == role.value
  {
    role.GetOr(Recruit)
  }

  /** `newMember.level || 5`: an absent or zero level is falsy. */
  function LevelOrDefault(level: Option<int>): (l: int)
    ensures l != 0
  {
    if level.Some? && level.value != 0 then level.value else 5
  }

  /** A draft the form's controls can produce: a picker role and a slider level. */
  predicate FromControls(d: Draft) {
    d.role.Some? && d.role.value in InitialRoles &&
    d.level.Some? && 1 <= d.level.value <= 10
  }

  class MembersPage {
    /** The roster (owned by the app; `onAdd` appends to it). */
    var members: seq<Member>
    var searchTerm: string
    var isAdding: bool
    var draft: Draft

    /** The form holds only what its controls can produce. */
    ghost predicate Valid()
      reads this
    {
      FromControls(draft)
    }

    constructor (roster: seq<Member>)
      ensures Valid()
      ensures members == roster && searchTerm == "" && !isAdding && draft == InitialDraft
    {
      members := roster;
      searchTerm := "";
      isAdding := false;
      draft := InitialDraft;
    }

    /** The cards on screen. */
    function Visible(): (r: seq<Member>)
      reads this
      ensures forall i :: 0 <= i < |r| ==> r[i] in members && Matches(r[i], searchTerm)
    {
      var r := FilterMembers(members, searchTerm);
      forall i | 0 <= i < |r| ensures r[i] in members {
        FilterMembership(members, searchTerm, r[i]);
      }
      r
    }

    method SetSearchTerm(term: string)
      modifies this
      ensures searchTerm == term
      ensures members == old(members) && isAdding == old(isAdding) && draft == old(draft)
    {
      searchTerm := term;
    }

    /** The enlist button opens the form; its state is kept. */
    method OpenForm()
      modifies this
      ensures isAdding
      ensures members == old(members) && searchTerm == old(searchTerm) && draft == old(draft)
    {
      isAdding := true;
    }

    /** The close button hides the form without clearing it. */
    method CancelForm()
      modifies this
      ensures !isAdding
      ensures members == old(members) && searchTerm == old(searchTerm) && draft == old(draft)
    {
      isAdding := false;
    }

    method EditName(name: string)
      requires Valid()
      modifies this
      ensures Valid()
      ensures draft == old(draft).(name := name)
      ensures members == old(members) && searchTerm == old(searchTerm) && isAdding == old(isAdding)
    {
      draft := draft.(name := name);
    }

    /** The role picker offers only the initial roles. */
    method EditRole(role: Role)
      requires Valid() && role in InitialRoles
      modifies this
      ensures Valid()
      ensures draft == old(draft).(role := Some(role))
      ensures members == old(members) && searchTerm == old(searchTerm) && isAdding == old(isAdding)
    {
      draft := draft.(role := Some(role));
    }

    /** The slider yields a whole level from 1 to 10. */
    method EditLevel(level: int)
      requires Valid() && 1 <= level <= 10
      modifies this
      ensures Valid()
      ensures draft == old(draft).(level := Some(level))
      ensures members == old(members) && searchTerm == old(searchTerm) && isAdding == old(isAdding)
    {
      draft := draft.(level := Some(level));
    }

    /**
     * `handleAdd`: with an empty name nothing happens; otherwise one member with
     * the fresh id, the draft's name and the defaulted role and level is
     * appended, and the form is reset and closed.
     */
    method HandleAdd(freshId: string)
      modifies this
      ensures searchTerm == old(searchTerm)
      ensures old(draft).name == "" ==>
        members == old(members) && draft == old(draft) && isAdding == old(isAdding)
      ensures old(draft).name != "" ==>
        members == old(members) + [Member(freshId, old(draft).name,
                                          RoleOrDefault(old(draft).role),
                                          LevelOrDefault(old(draft).level))]
      ensures old(draft).name != "" ==> draft == InitialDraft && !isAdding
      ensures old(Valid()) ==> Valid()
      ensures old(Valid()) && old(draft).name != "" ==>
        members[|members| - 1].role == old(draft).role.value &&
        members[|members| - 1].level == old(draft).level.value &&
        1 <= members[|members| - 1].level <= 10
      ensures UniqueIds(old(members)) && freshId !in Ids(old(members)) ==> UniqueIds(members)
    {
      if draft.name == "" {
        return;
      }
      var m := Member(freshId, draft.name, RoleOrDefault(draft.role), LevelOrDefault(draft.level));
      members := members + [m];
      draft := InitialDraft;
      isAdding := false;
    }
  }
}
