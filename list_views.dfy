/**
 * The backend's list endpoints (flood-sos-backend/flood_sos/sos/views.py):
 * SOS requests newest first, optionally narrowed by district (case-insensitive)
 * and status, and the active relief camps ordered by district.
 */
module ListViews {

  import opened Wrappers
  import opened Text
  import opened Seqs
  import opened Records

  /** A query parameter that is present and not empty (Python truthiness of the string). */
  predicate Given(p: Option<string>) {
    p.Some? && p.value != ""
  }

  /** `__iexact`: equality after folding ASCII letters to lower case. */
  predicate IExact(a: string, b: string) {
    Lower(a) == Lower(b)
  }

  /** `order_by("-created_at")`: a request may precede any request not newer than it. */
  function NewestFirst(): (SosRequest, SosRequest) -> bool {
    (a: SosRequest, b: SosRequest) => a.createdAt >= b.createdAt
  }

  /** `order_by("district")`. */
  function ByDistrict(): (ReliefCamp, ReliefCamp) -> bool {
    (a: ReliefCamp, b: ReliefCamp) => StrLe(a.district, b.district)
  }

  lemma NewestFirstIsPreorder()
    ensures TotalPreorder(NewestFirst())
  {
  }

  lemma ByDistrictIsPreorder()
    ensures TotalPreorder(ByDistrict())
  {
    var le := ByDistrict();
    forall a: ReliefCamp, b: ReliefCamp
      ensures le(a, b) || le(b, a)
    {
      StrLeTotal(a.district, b.district);
    }
    forall a: ReliefCamp, b: ReliefCamp, c: ReliefCamp | le(a, b) && le(b, c)
      ensures le(a, c)
    {
      StrLeTransitive(a.district, b.district, c.district);
    }
  }

  function InDistrict(district: string): SosRequest -> bool {
    (r: SosRequest) => IExact(r.district, district)
  }

  function HasStatus(status: string): SosRequest -> bool {
    (r: SosRequest) => r.status == status
  }

  /** What a request must satisfy to be listed for the given query parameters. */
  predicate MatchesQuery(r: SosRequest, district: Option<string>, status: Option<string>) {
    && (Given(district) ==> IExact(r.district, district.value))
    && (Given(status) ==> r.status == status.value)
  }

  /** `SosRequestListView.get_queryset` over the stored requests `all`. */
  function ListSosRequests(all: seq<SosRequest>, district: Option<string>, status: Option<string>)
    : (r: seq<SosRequest>)
    ensures |r| <= |all|
    ensures forall x :: x in r ==> x in all && MatchesQuery(x, district, status)
  {
    NewestFirstIsPreorder();
    var ordered := SortBy(all, NewestFirst());
    assert |ordered| == |all| by {
      assert |multiset(ordered)| == |multiset(all)|;
    }
    assert forall x :: x in ordered ==> x in all by {
      forall x | x in ordered
        ensures x in all
      {
        assert x in multiset(ordered);
      }
    }
    var byDistrict :=
      if Given(district) then
        FilterMembers(InDistrict(district.value), ordered);
        Filter(InDistrict(district.value), ordered)
      else ordered;
    if Given(status) then
      FilterMembers(HasStatus(status.value), byDistrict);
      Filter(HasStatus(status.value), byDistrict)
    else byDistrict
  }

  /**
   * The listing is newest first, holds every stored request matching the query
   * exactly as often as it is stored and nothing else; without parameters it
   * is a reordering of all requests.
   */
  lemma {:induction false} ListSosRequestsSpec(all: seq<SosRequest>, district: Option<string>, status: Option<string>)
    ensures var r := ListSosRequests(all, district, status);
      forall i, j :: 0 <= i < j < |r| ==> r[i].createdAt >= r[j].createdAt
    ensures var r := ListSosRequests(all, district, status);
      forall x :: multiset(r)[x] == if MatchesQuery(x, district, status) then multiset(all)[x] else 0
    ensures !Given(district) && !Given(status) ==>
      multiset(ListSosRequests(all, district, status)) == multiset(all)
  {
    NewestFirstIsPreorder();
    var ordered := SortBy(all, NewestFirst());
    var byDistrict := if Given(district) then Filter(InDistrict(district.value), ordered) else ordered;
    var r := ListSosRequests(all, district, status);
    if Given(district) {
      FilterKeepsSorted(InDistrict(district.value), ordered, NewestFirst());
      FilterCount(InDistrict(district.value), ordered);
    }
    if Given(status) {
      FilterKeepsSorted(HasStatus(status.value), byDistrict, NewestFirst());
      FilterCount(HasStatus(status.value), byDistrict);
    }
    assert SortedBy(r, NewestFirst());
  }

  /** The district parameter ignores letter case: "Colombo" and "colombo" list the same requests. */
  lemma {:induction false} DistrictQueryIgnoresCase(all: seq<SosRequest>, d1: string, d2: string, status: Option<string>)
    requires Lower(d1) == Lower(d2)
    ensures ListSosRequests(all, Some(d1), status) == ListSosRequests(all, Some(d2), status)
  {
    NewestFirstIsPreorder();
    var ordered := SortBy(all, NewestFirst());
    if d1 != "" && d2 != "" {
      FilterCongruent(InDistrict(d1), InDistrict(d2), ordered);
    } else {
      assert |Lower(d1)| == |d1| && |Lower(d2)| == |d2|;
    }
  }

  function IsActive(): ReliefCamp -> bool {
    (c: ReliefCamp) => c.isActive
  }

  /** `ReliefCampListView.queryset`: the active camps ordered by district. */
  function ActiveCamps(all: seq<ReliefCamp>): (r: seq<ReliefCamp>)
    ensures |r| <= |all|
    ensures forall c :: c in r ==> c in all && c.isActive
  {
    ByDistrictIsPreorder();
    var active := Filter(IsActive(), all);
    FilterMembers(IsActive(), all);
    var r := SortBy(active, ByDistrict());
    assert |r| == |active| by {
      assert |multiset(r)| == |multiset(active)|;
    }
    assert forall c :: c in r ==> c in active by {
      forall c | c in r
        ensures c in active
      {
        assert c in multiset(r);
      }
    }
    r
  }

  /** Every active camp, as often as it is stored, in ascending district order; no inactive camp. */
  lemma {:induction false} ActiveCampsSpec(all: seq<ReliefCamp>)
    ensures var r := ActiveCamps(all);
      forall i, j :: 0 <= i < j < |r| ==> StrLe(r[i].district, r[j].district)
    ensures forall c :: multiset(ActiveCamps(all))[c] == if c.isActive then multiset(all)[c] else 0
  {
    ByDistrictIsPreorder();
    var r := ActiveCamps(all);
    assert SortedBy(r, ByDistrict());
    FilterCount(IsActive(), all);
  }
}
