/**
 * The sales `TeamMembers` page (src/pages/sales/TeamMembers.tsx): a search
 * over a constant team list and the card shown when nothing matches.
 */
module TeamMembers {
  import opened Text
  import opened Seqs

  /** A team member; the avatar is not part of the model. */
  datatype TeamMember = TeamMember(
    id: string, name: string, email: string, phone: string, role: string,
    performance: int, customersCount: int, salesTotal: int)

  const MockTeamMembers: seq<TeamMember> := [
    TeamMember("tm-1", "Alex Johnson", "alex.johnson@example.com", "(555) 123-4567", "Sales Manager", 112, 28, 145800),
    TeamMember("tm-2", "Sarah Williams", "sarah.williams@example.com", "(555) 234-5678", "Senior Sales Rep", 108, 24, 128500),
    TeamMember("tm-3", "Michael Brown", "michael.brown@example.com", "(555) 345-6789", "Sales Rep", 95, 18, 98200),
    TeamMember("tm-4", "Emily Davis", "emily.davis@example.com", "(555) 456-7890", "Junior Sales Rep", 87, 12, 76500),
    TeamMember("tm-5", "David Wilson", "david.wilson@example.com", "(555) 567-8901", "Senior Sales Rep", 104, 22, 118300)
  ]

  /** The filter callback: the term (case-folded) in the name, role or email; the phone is not searched. */
  predicate Keep(searchTerm: string, m: TeamMember) {
    searchTerm == "" ||
    Contains(Lower(m.name), Lower(searchTerm)) ||
    Contains(Lower(m.role), Lower(searchTerm)) ||
    Contains(Lower(m.email), Lower(searchTerm))
  }

  /** `filteredTeamMembers`, over any team list (the page passes `MockTeamMembers`). */
  function FilteredTeamMembers(team: seq<TeamMember>, searchTerm: string): (r: seq<TeamMember>)
    ensures IsSubseq(r, team)
    ensures forall i :: 0 <= i < |r| ==> Keep(searchTerm, r[i])
  {
    FilterIsSubseq(team, (m: TeamMember) => Keep(searchTerm, m));
    Filter(team, (m: TeamMember) => Keep(searchTerm, m))
  }

  /** A member is listed exactly when the term occurs in its name, role or email. */
  lemma {:induction false} FilteredTeamMembersMembers(team: seq<TeamMember>, searchTerm: string, m: TeamMember)
    ensures m in FilteredTeamMembers(team, searchTerm) <==> m in team && Keep(searchTerm, m)
  {
    FilterMembers(team, (m: TeamMember) => Keep(searchTerm, m), m);
  }

  /** Every copy of a matching member survives, and no copy of another. */
  lemma FilteredTeamMembersCount(team: seq<TeamMember>, searchTerm: string, m: TeamMember)
    ensures multiset(FilteredTeamMembers(team, searchTerm))[m] == if Keep(searchTerm, m) then multiset(team)[m] else 0
  {
    FilterCount(team, (m: TeamMember) => Keep(searchTerm, m), m);
  }

  /** An empty term lists the whole team. */
  lemma {:induction false} EmptyTermKeepsAll(team: seq<TeamMember>)
    ensures FilteredTeamMembers(team, "") == team
  {
    FilterAll(team, (m: TeamMember) => Keep("", m));
  }

  /** Two members differing only in phone number are kept or dropped together. */
  lemma PhoneIsNotSearched(searchTerm: string, m: TeamMember, phone: string)
    ensures Keep(searchTerm, m.(phone := phone)) == Keep(searchTerm, m)
  {
  }

  /** What the list area shows. */
  datatype Listing = Cards(members: seq<TeamMember>) | NoMembersFound

  /** One card per listed member, or the single "No team members found" card. */
  function Render(filtered: seq<TeamMember>): (l: Listing)
    ensures l == NoMembersFound <==> filtered == []
    ensures l.Cards? ==> l.members == filtered
  {
    if filtered == [] then NoMembersFound else Cards(filtered)
  }
}
