/**
 The search for a free slug: `ListingsService.generateSlug`, which probes the listing table until it
 finds a slug that is free or its own, and the loop of the seed script over the slugs it has used.
 The base, which is the title without diacritics and punctuation, is an input.
 */
module SlugSearch {
  import opened Options
  import opened Sets

  type Id = nat

  /** The slug of every listing. */
  type SlugTable = map<Id, string>

  /** The unique constraint on `listings.slug`. */
  ghost predicate UniqueSlugs(table: SlugTable) {
    forall a, b :: a in table && b in table && table[a] == table[b] ==> a == b
  }

  // ----- decimal suffixes -----

  function Digit(d: nat): char
    requires d < 10
  {
    ('0' as int + d) as char
  }

  function Decimal(n: nat): string {
    if n < 10 then [Digit(n)] else Decimal(n / 10) + [Digit(n % 10)]
  }

  /** The number that a decimal numeral stands for. */
  function Value(s: string): int {
    if s == "" then 0 else 10 * Value(s[..|s| - 1]) + (s[|s| - 1] as int - 48)
  }

  /** A suffix is the numeral of its index: digits only, without a leading zero, and it reads back. */
  lemma {:induction false} DecimalReadsBack(n: nat)
    ensures Value(Decimal(n)) == n
    ensures forall i :: 0 <= i < |Decimal(n)| ==> 48 <= Decimal(n)[i] as int <= 57
    ensures |Decimal(n)| >= 1 && (|Decimal(n)| > 1 ==> Decimal(n)[0] as int != 48)
  {
    var s := Decimal(n);
    assert s[..|s| - 1] == (if n < 10 then "" else Decimal(n / 10));
    if n >= 10 {
      DecimalReadsBack(n / 10);
      assert n / 10 >= 1;
      assert |Decimal(n / 10)| == 1 ==> Value(Decimal(n / 10)) == 10 * Value("") + (Decimal(n / 10)[0] as int - 48) by {
        assert Decimal(n / 10)[..|Decimal(n / 10)| - 1] == "" <== |Decimal(n / 10)| == 1;
      }
    }
  }

  lemma {:induction false} DecimalInjective(m: nat, n: nat)
    requires Decimal(m) == Decimal(n)
    ensures m == n
  {
    var a, b := Decimal(m), Decimal(n);
    assert a[|a| - 1] == b[|b| - 1];
    if m >= 10 && n >= 10 {
      assert a[..|a| - 1] == Decimal(m / 10) && b[..|b| - 1] == Decimal(n / 10);
      DecimalInjective(m / 10, n / 10);
    } else {
      DecimalNotEmpty(m / 10);
      DecimalNotEmpty(n / 10);
    }
  }

  lemma DecimalNotEmpty(n: nat)
    ensures |Decimal(n)| >= 1
  {
  }

  function Suffixed(base: string, n: nat): string {
    base + "-" + Decimal(n)
  }

  lemma SuffixedInjective(base: string, m: nat, n: nat)
    requires Suffixed(base, m) == Suffixed(base, n)
    ensures m == n
  {
    assert Suffixed(base, m)[|base| + 1..] == Decimal(m);
    assert Suffixed(base, n)[|base| + 1..] == Decimal(n);
    DecimalInjective(m, n);
  }

  // ----- how often a probe can miss -----

  function Tried(candidate: nat -> string, n: nat): set<string> {
    set k | 0 <= k < n :: candidate(k)
  }

  ghost predicate Distinct(candidate: nat -> string) {
    forall j: nat, k: nat :: j < k ==> candidate(j) != candidate(k)
  }

  lemma {:induction false} TriedSize(candidate: nat -> string, n: nat)
    requires Distinct(candidate)
    ensures |Tried(candidate, n)| == n
  {
    if n > 0 {
      TriedSize(candidate, n - 1);
      assert Tried(candidate, n) == Tried(candidate, n - 1) + {candidate(n - 1)};
    } else {
      assert Tried(candidate, n) == {};
    }
  }

  /** Pigeonhole: distinct candidates that are all used are no more than the used slugs. */
  lemma UsedAtMost(candidate: nat -> string, n: nat, used: set<string>)
    requires Distinct(candidate) && forall k :: 0 <= k < n ==> candidate(k) in used
    ensures n <= |used|
  {
    TriedSize(candidate, n);
    SubsetSize(Tried(candidate, n), used);
  }

  function UsedSlugs(table: SlugTable): set<string> {
    set id | id in table :: table[id]
  }

  lemma {:induction false} UsedSlugsSize(table: SlugTable)
    ensures |UsedSlugs(table)| <= |table|
  {
    if table.Keys == {} {
      assert UsedSlugs(table) == {};
    } else {
      var x :| x in table.Keys;
      var rest := table - {x};
      UsedSlugsSize(rest);
      assert forall id :: id in table && id != x ==> id in rest && rest[id] == table[id];
      assert UsedSlugs(table) <= UsedSlugs(rest) + {table[x]};
      assert table.Keys == rest.Keys + {x} && |table| == |table.Keys| && |rest| == |rest.Keys|;
      SubsetSize(UsedSlugs(table), UsedSlugs(rest) + {table[x]});
    }
  }

  // ----- generateSlug -----

  /** The slugs that `generateSlug` tries, in order: the second one for an empty base is "-1". */
  function Candidate(base: string, k: nat): string {
    if k > 0 then Suffixed(base, k) else if base == "" then "listing" else base
  }

  lemma CandidatesDistinct(base: string)
    ensures Distinct((k: nat) => Candidate(base, k))
  {
    forall j: nat, k: nat | j < k
      ensures Candidate(base, j) != Candidate(base, k)
    {
      if j > 0 && Candidate(base, j) == Candidate(base, k) {
        SuffixedInjective(base, j, k);
      } else if j == 0 && base == "" {
        assert Candidate(base, k)[0] == '-' && Candidate(base, 0)[0] == 'l';
      }
    }
  }

  /** The slug belongs to another listing than `own`. */
  predicate Taken(table: SlugTable, slug: string, own: Option<Id>) {
    exists id :: id in table && table[id] == slug && Some(id) != own
  }

  lemma TakenAtMost(table: SlugTable, base: string, n: nat, own: Option<Id>)
    requires forall k :: 0 <= k < n ==> Taken(table, Candidate(base, k), own)
    ensures n <= |table|
  {
    CandidatesDistinct(base);
    forall k | 0 <= k < n
      ensures Candidate(base, k) in UsedSlugs(table)
    {
      assert Taken(table, Candidate(base, k), own);
    }
    UsedAtMost((k: nat) => Candidate(base, k), n, UsedSlugs(table));
    UsedSlugsSize(table);
  }

  /** `findUnique` by slug. */
  method FindBySlug(table: SlugTable, slug: string) returns (found: Option<Id>)
    ensures found.None? <==> forall id :: id in table ==> table[id] != slug
    ensures found.Some? ==> found.value in table && table[found.value] == slug
  {
    if slug in UsedSlugs(table) {
      var id :| id in table.Keys && table[id] == slug;
      return Some(id);
    }
    return None;
  }

  /** The first candidate from the k-th on that is free or the listing's own. */
  function FirstFree(table: SlugTable, base: string, own: Option<Id>, k: nat): (n: nat)
    requires forall j :: 0 <= j < k ==> Taken(table, Candidate(base, j), own)
    ensures k <= n <= |table| && !Taken(table, Candidate(base, n), own)
    ensures forall j :: 0 <= j < n ==> Taken(table, Candidate(base, j), own)
    decreases |table| + 1 - k
  {
    TakenAtMost(table, base, k, own);
    if Taken(table, Candidate(base, k), own) then
      assert forall j :: 0 <= j < k + 1 ==> Taken(table, Candidate(base, j), own);
      TakenAtMost(table, base, k + 1, own);
      FirstFree(table, base, own, k + 1)
    else k
  }

  function SlugFor(table: SlugTable, base: string, own: Option<Id>): string {
    Candidate(base, FirstFree(table, base, own, 0))
  }

  /** The loop returns the first candidate that is free or the listing's own, after at most one probe
      more than there are listings. */
  method GenerateSlug(table: SlugTable, base: string, own: Option<Id>) returns (slug: string, ghost probes: nat)
    requires UniqueSlugs(table)
    ensures 1 <= probes <= |table| + 1
    ensures slug == (if probes > 1 then base + "-" + Decimal(probes - 1) else if base != "" then base else "listing")
    ensures forall id :: id in table && table[id] == slug ==> own == Some(id)
    ensures probes > 1 ==>
              exists id :: id in table && own != Some(id) && table[id] == (if base != "" then base else "listing")
    ensures forall k :: 1 <= k < probes - 1 ==> exists id :: id in table && own != Some(id) && table[id] == base + "-" + Decimal(k)
    ensures slug == SlugFor(table, base, own)
  {
    var candidate := if base != "" then base else "listing";
    var index := 1;
    while true
      invariant index >= 1 && candidate == Candidate(base, index - 1)
      invariant forall k :: 0 <= k < index - 1 ==> Taken(table, Candidate(base, k), own)
      invariant index - 1 <= |table|
      decreases |table| + 1 - index
    {
      var existing := FindBySlug(table, candidate);
      if existing.None? || existing == own {
        assert !Taken(table, candidate, own);
        assert index > 1 ==> Taken(table, Candidate(base, 0), own);
        forall k | 1 <= k < index - 1
          ensures exists id :: id in table && own != Some(id) && table[id] == base + "-" + Decimal(k)
        {
          assert Taken(table, Candidate(base, k), own);
        }
        assert FirstFree(table, base, own, 0) == index - 1;
        return candidate, index;
      }
      assert Taken(table, candidate, own);
      TakenAtMost(table, base, index, own);
      candidate := base + "-" + Decimal(index);
      index := index + 1;
    }
  }

  // ----- slugs over a run of requests -----

  /** Requests that write the listing table, one after the other. */
  datatype Request = Create(id: Id, base: string) | Retitle(id: Id, base: string) | Delete(id: Id)

  function Serve(table: SlugTable, r: Request): SlugTable {
    match r
    case Create(id, base) => if id in table then table else table[id := SlugFor(table, base, None)]
    case Retitle(id, base) => if id !in table then table else table[id := SlugFor(table, base, Some(id))]
    case Delete(id) => table - {id}
  }

  function ServeAll(table: SlugTable, requests: seq<Request>): SlugTable
    decreases |requests|
  {
    if requests == [] then table else ServeAll(Serve(table, requests[0]), requests[1..])
  }

  /** A request writes its own listing only: a create or a retitle gives it the slug of its search, and a
      delete removes it. */
  lemma ServesOne(table: SlugTable, r: Request)
    ensures Serve(table, r) - {r.id} == table - {r.id}
    ensures r.Delete? ==> r.id !in Serve(table, r)
    ensures r.Create? && r.id in table ==> Serve(table, r) == table
    ensures r.Retitle? && r.id !in table ==> Serve(table, r) == table
    ensures (r.Create? && r.id !in table) || (r.Retitle? && r.id in table) ==>
              r.id in Serve(table, r)
              && Serve(table, r)[r.id] == SlugFor(table, r.base, if r.Create? then None else Some(r.id))
  {
  }

  /** The unique constraint never rejects a request that runs alone. */
  lemma {:induction false} SlugsStayUnique(table: SlugTable, requests: seq<Request>)
    requires UniqueSlugs(table)
    ensures UniqueSlugs(ServeAll(table, requests))
    decreases |requests|
  {
    if requests != [] {
      var next := Serve(table, requests[0]);
      forall a, b | a in next && b in next && next[a] == next[b]
        ensures a == b
      {
      }
      SlugsStayUnique(next, requests[1..]);
    }
  }

  /** A listing that is given its old title again keeps its slug, if that slug is the bare base. */
  lemma RetitleKeepsBase(table: SlugTable, id: Id, base: string)
    requires UniqueSlugs(table) && id in table && base != "" && table[id] == base
    ensures Serve(table, Retitle(id, base)) == table
  {
    assert !Taken(table, Candidate(base, 0), Some(id));
  }

  // ----- the seed script -----

  /** What the seed loop tries: its suffixes start at 2. */
  function SeedCandidate(base: string, k: nat): string {
    if k == 0 then base else Suffixed(base, k + 1)
  }

  lemma SeedCandidatesDistinct(base: string)
    ensures Distinct((k: nat) => SeedCandidate(base, k))
  {
    forall j: nat, k: nat | j < k
      ensures SeedCandidate(base, j) != SeedCandidate(base, k)
    {
      if j > 0 && SeedCandidate(base, j) == SeedCandidate(base, k) {
        SuffixedInjective(base, j + 1, k + 1);
      }
    }
  }

  /** The inner loop: the first candidate that is not used. */
  method FreeSeedSlug(baseSlug: string, usedSlugs: set<string>) returns (slug: string, ghost k: nat)
    ensures slug == SeedCandidate(baseSlug, k) && slug !in usedSlugs && k <= |usedSlugs|
    ensures slug == if k == 0 then baseSlug else baseSlug + "-" + Decimal(k + 1)
    ensures forall m :: 0 <= m < k ==> SeedCandidate(baseSlug, m) in usedSlugs
  {
    slug := baseSlug;
    var suffix := 2;
    SeedCandidatesDistinct(baseSlug);
    while slug in usedSlugs
      invariant suffix >= 2 && slug == SeedCandidate(baseSlug, suffix - 2)
      invariant forall m :: 0 <= m < suffix - 2 ==> SeedCandidate(baseSlug, m) in usedSlugs
      invariant suffix - 2 <= |usedSlugs|
      decreases |usedSlugs| + 2 - suffix
    {
      UsedAtMost((k: nat) => SeedCandidate(baseSlug, k), suffix - 1, usedSlugs);
      slug := baseSlug + "-" + Decimal(suffix);
      suffix := suffix + 1;
    }
    k := suffix - 2;
  }

  /** The slug is the first candidate of the base that is not among the earlier ones. */
  ghost predicate FirstUnused(base: string, slug: string, earlier: seq<string>) {
    exists k: nat :: slug == SeedCandidate(base, k) && forall m :: 0 <= m < k ==> SeedCandidate(base, m) in earlier
  }

  ghost predicate Seeded(bases: seq<string>, slugs: seq<string>) {
    && |slugs| <= |bases|
    && (forall i, j :: 0 <= i < j < |slugs| ==> slugs[i] != slugs[j])
    && (forall i :: 0 <= i < |slugs| ==> FirstUnused(bases[i], slugs[i], slugs[..i]))
  }

  lemma SeedOneMore(bases: seq<string>, slugs: seq<string>, slug: string)
    requires Seeded(bases, slugs) && |slugs| < |bases| && slug !in slugs && FirstUnused(bases[|slugs|], slug, slugs)
    ensures Seeded(bases, slugs + [slug])
  {
    var more := slugs + [slug];
    forall i | 0 <= i < |more|
      ensures FirstUnused(bases[i], more[i], more[..i])
    {
      if i < |slugs| {
        assert more[..i] == slugs[..i];
      } else {
        assert more[..i] == slugs;
      }
    }
  }

  /** All seeded slugs are distinct, and each is the first candidate of its title that no earlier
      listing uses. */
  method SeedSlugs(bases: seq<string>) returns (slugs: seq<string>)
    ensures |slugs| == |bases|
    ensures forall i, j :: 0 <= i < j < |slugs| ==> slugs[i] != slugs[j]
    ensures forall i :: 0 <= i < |slugs| ==> FirstUnused(bases[i], slugs[i], slugs[..i])
  {
    var usedSlugs: set<string> := {};
    slugs := [];
    for n := 0 to |bases|
      invariant |slugs| == n && Seeded(bases, slugs)
      invariant forall slug :: slug in usedSlugs <==> slug in slugs
    {
      var slug, k := FreeSeedSlug(bases[n], usedSlugs);
      usedSlugs := usedSlugs + {slug};
      SeedOneMore(bases, slugs, slug);
      slugs := slugs + [slug];
    }
  }
}
