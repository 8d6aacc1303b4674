/** Looking a channel up by a user-given reference, one at a time and in a batch. */
module SourceChannels {
  import opened Schema
  import opened ErrorCodes

  type ChannelId = nat
  datatype Channel = Channel(externalId: Option<string>, name: Option<string>, url: Option<string>)
  type Channels = map<ChannelId, Channel>

  // ----- normalising a reference -----

  function LowerChar(c: char): char {
    if 'A' <= c <= 'Z' then ((c as int) + 32) as char else c
  }

  function Lower(s: string): (r: string)
    ensures |r| == |s| && forall i :: 0 <= i < |s| ==> r[i] == LowerChar(s[i])
  {
    seq(|s|, i requires 0 <= i < |s| => LowerChar(s[i]))
  }

  function StripAtLeft(s: string): string {
    if s != [] && s[0] == '@' then StripAtLeft(s[1..]) else s
  }

  function StripAtRight(s: string): string {
    if s != [] && s[|s| - 1] == '@' then StripAtRight(s[..|s| - 1]) else s
  }

  function StripSlashes(s: string): string
    decreases |s|
  {
    if s != [] && s[0] == '/' then StripSlashes(s[1..])
    else if s != [] && s[|s| - 1] == '/' then StripSlashes(s[..|s| - 1])
    else s
  }

  function CutAt(s: string, c: char): string {
    if s == [] || s[0] == c then [] else [s[0]] + CutAt(s[1..], c)
  }

  const URL_PREFIXES: seq<string> := [
    "https://t.me/", "http://t.me/", "https://telegram.me/", "http://telegram.me/", "t.me/", "telegram.me/"
  ]

  // The first prefix, in order, that the reference starts with in any case.
  function DropUrlPrefix(s: string, prefixes: seq<string>): string {
    if prefixes == [] then s
    else if prefixes[0] <= Lower(s) then s[|prefixes[0]|..]
    else DropUrlPrefix(s, prefixes[1..])
  }

  datatype Pass = DropPrefix | CutQuery | CutFragment | DropSlashes | DropAts | DropBlanks

  function RunPass(p: Pass, s: string): string {
    match p
    case DropPrefix => DropUrlPrefix(s, URL_PREFIXES)
    case CutQuery => CutAt(s, '?')
    case CutFragment => CutAt(s, '#')
    case DropSlashes => StripSlashes(s)
    case DropAts => StripAtLeft(s)
    case DropBlanks => Strip(s)
  }

  function RunPasses(passes: seq<Pass>, s: string): string
    decreases |passes|
  {
    if passes == [] then s else RunPasses(passes[1..], RunPass(passes[0], s))
  }

  const NORMALISATION: seq<Pass> := [DropBlanks, DropPrefix, CutQuery, CutFragment, DropSlashes, DropAts, DropBlanks]

  function Needle(ref: string): string {
    RunPasses(NORMALISATION, ref)
  }

  // Both lookups compare in lower case only.
  function Key(ref: string): string {
    Lower(Needle(ref))
  }

  function Stem(needle: string): string {
    StripAtLeft(Strip(needle))
  }

  /** The six canonical URLs of a needle, in lower case. */
  function Candidates(needle: string): seq<string> {
    if Stem(needle) == [] then []
    else seq(|URL_PREFIXES|, i requires 0 <= i < |URL_PREFIXES| => URL_PREFIXES[i] + Lower(Stem(needle)))
  }

  lemma PrefixesDiffer(i: nat, j: nat, s: string)
    requires i < j < |URL_PREFIXES|
    ensures !(URL_PREFIXES[i] <= s && URL_PREFIXES[j] <= s)
  {
    assert URL_PREFIXES[i] <= s ==>
        s[0] == URL_PREFIXES[i][0] && s[1] == URL_PREFIXES[i][1] && s[4] == URL_PREFIXES[i][4];
    assert URL_PREFIXES[j] <= s ==>
        s[0] == URL_PREFIXES[j][0] && s[1] == URL_PREFIXES[j][1] && s[4] == URL_PREFIXES[j][4];
    if i == 0 && j == 2 {
      assert URL_PREFIXES[0] <= s ==> s[9] == '.';
      assert URL_PREFIXES[2] <= s ==> s[9] == 'e';
    } else if i == 1 && j == 3 {
      assert URL_PREFIXES[1] <= s ==> s[8] == '.';
      assert URL_PREFIXES[3] <= s ==> s[8] == 'e';
    }
  }

  /** No prefix is a prefix of another, so two needles share a candidate URL only if they
      share all six. */
  lemma SharedUrlSharesAll(m: string, n: string, url: string)
    requires url in Candidates(m) && url in Candidates(n)
    ensures Candidates(m) == Candidates(n)
  {
    var i :| 0 <= i < |Candidates(m)| && Candidates(m)[i] == url;
    var j :| 0 <= j < |Candidates(n)| && Candidates(n)[j] == url;
    assert URL_PREFIXES[i] <= url && URL_PREFIXES[j] <= url;
    if i != j {
      PrefixesDiffer(if i < j then i else j, if i < j then j else i, url);
    }
    assert Lower(Stem(m)) == url[|URL_PREFIXES[i]|..] == Lower(Stem(n));
  }

  // ----- lower case commutes with stripping -----

  lemma {:induction false} LowerStripLeft(s: string)
    ensures StripLeft(Lower(s)) == Lower(StripLeft(s))
  {
    if s != [] && IsSpace(s[0]) {
      assert Lower(s)[1..] == Lower(s[1..]);
      LowerStripLeft(s[1..]);
    }
  }

  lemma {:induction false} LowerStripRight(s: string)
    ensures StripRight(Lower(s)) == Lower(StripRight(s))
  {
    if s != [] && IsSpace(s[|s| - 1]) {
      assert Lower(s)[..|s| - 1] == Lower(s[..|s| - 1]);
      LowerStripRight(s[..|s| - 1]);
    }
  }

  lemma {:induction false} LowerStripAtLeft(s: string)
    ensures StripAtLeft(Lower(s)) == Lower(StripAtLeft(s))
  {
    if s != [] && s[0] == '@' {
      assert Lower(s)[1..] == Lower(s[1..]);
      LowerStripAtLeft(s[1..]);
    }
  }

  /** The batch builds its URLs from the lower-cased needle, the single lookup from the needle
      as given; the URLs are the same. */
  lemma CandidatesIgnoreCase(needle: string)
    ensures Candidates(Lower(needle)) == Candidates(needle)
  {
    LowerStripLeft(needle);
    LowerStripRight(StripLeft(needle));
    LowerStripAtLeft(Strip(needle));
    assert Stem(Lower(needle)) == Lower(Stem(needle));
    assert Lower(Lower(Stem(needle))) == Lower(Stem(needle));
    assert Stem(needle) == [] <==> Lower(Stem(needle)) == [];
  }

  // ----- the tiers -----

  ghost function Greatest(s: set<ChannelId>): (m: Option<ChannelId>)
    ensures m.None? <==> s == {}
    ensures m.Some? ==> m.value in s && forall x :: x in s ==> x <= m.value
  {
    if s == {} then None
    else
      var x :| x in s;
      assert s == {x} + (s - {x});
      var m := Greatest(s - {x});
      if m.None? || x > m.value then Some(x) else m
  }

  predicate MatchesId(c: Channel, key: string) {
    c.externalId.Some? && Lower(c.externalId.value) == key
  }

  predicate MatchesName(c: Channel, key: string) {
    Lower(StripAtRight(StripAtLeft(if c.name.Some? then c.name.value else ""))) == key
  }

  predicate MatchesUrl(c: Channel, urls: seq<string>) {
    c.url.Some? && Lower(c.url.value) in urls
  }

  function ById(channels: Channels, key: string): set<ChannelId> {
    set id | id in channels && MatchesId(channels[id], key)
  }

  function ByName(channels: Channels, key: string): set<ChannelId> {
    set id | id in channels && MatchesName(channels[id], key)
  }

  function ByUrl(channels: Channels, urls: seq<string>): set<ChannelId> {
    set id | id in channels && MatchesUrl(channels[id], urls)
  }

  /** The single lookup after normalisation: exact id, exact name, exact URL, and then the
      two slow searches, whose answers `late` gives by lower-cased needle. */
  ghost function FindByKey(channels: Channels, late: map<string, ChannelId>, key: string): Option<ChannelId> {
    if key == "" then None
    else if ById(channels, key) != {} then Greatest(ById(channels, key))
    else if ByName(channels, key) != {} then Greatest(ByName(channels, key))
    else if ByUrl(channels, Candidates(key)) != {} then Greatest(ByUrl(channels, Candidates(key)))
    else if key in late then Some(late[key])
    else None
  }

  ghost function FindIdByRef(channels: Channels, late: map<string, ChannelId>, ref: string): Option<ChannelId> {
    FindByKey(channels, late, Key(ref))
  }

  // ----- the tiers, read off the rows -----

  predicate HasId(c: Channel, key: string) {
    c.externalId.Some? && Lower(c.externalId.value) == key
  }

  predicate IsCalled(c: Channel, key: string) {
    (c.name.None? && key == "") || (c.name.Some? && Lower(StripAtRight(StripAtLeft(c.name.value))) == key)
  }

  // One of the six URLs of the key, in whatever case.
  predicate IsAt(c: Channel, key: string) {
    && c.url.Some? && Stem(key) != ""
    && var url, name := Lower(c.url.value), Lower(Stem(key));
    || url == "https://t.me/" + name || url == "http://t.me/" + name || url == "t.me/" + name
    || url == "https://telegram.me/" + name || url == "http://telegram.me/" + name || url == "telegram.me/" + name
  }

  lemma IsAtIff(c: Channel, key: string)
    ensures MatchesUrl(c, Candidates(key)) <==> IsAt(c, key)
  {
    if c.url.Some? && Stem(key) != "" {
      var url, name := Lower(c.url.value), Lower(Stem(key));
      assert |Candidates(key)| == 6 && forall i :: 0 <= i < 6 ==> Candidates(key)[i] == URL_PREFIXES[i] + name;
      if url in Candidates(key) {
        var i :| 0 <= i < 6 && Candidates(key)[i] == url;
      }
      if IsAt(c, key) {
        assert url == Candidates(key)[0] || url == Candidates(key)[1] || url == Candidates(key)[2]
               || url == Candidates(key)[3] || url == Candidates(key)[4] || url == Candidates(key)[5];
      }
    }
  }

  ghost predicate NewestOf(ids: set<ChannelId>, id: Option<ChannelId>) {
    id.Some? && id.value in ids && forall other :: other in ids ==> other <= id.value
  }

  function WithId(channels: Channels, key: string): set<ChannelId> {
    set c | c in channels && HasId(channels[c], key)
  }

  function Called(channels: Channels, key: string): set<ChannelId> {
    set c | c in channels && IsCalled(channels[c], key)
  }

  function At(channels: Channels, key: string): set<ChannelId> {
    set c | c in channels && IsAt(channels[c], key)
  }

  /** The newest channel with this id; if none has it, the newest of this name; if none is called
      so, the newest at this address; and if there is none either, what the slow searches say. */
  ghost predicate FoundInTiers(channels: Channels, late: map<string, ChannelId>, key: string, id: Option<ChannelId>) {
    if key == "" then id.None?
    else if WithId(channels, key) != {} then NewestOf(WithId(channels, key), id)
    else if Called(channels, key) != {} then NewestOf(Called(channels, key), id)
    else if At(channels, key) != {} then NewestOf(At(channels, key), id)
    else id == if key in late then Some(late[key]) else None
  }

  lemma IsCalledIff(c: Channel, key: string)
    ensures MatchesName(c, key) <==> IsCalled(c, key)
  {
    assert Lower(StripAtRight(StripAtLeft(""))) == "";
  }

  lemma TiersAreAlike(channels: Channels, key: string)
    ensures ById(channels, key) == WithId(channels, key) && ByName(channels, key) == Called(channels, key)
    ensures ByUrl(channels, Candidates(key)) == At(channels, key)
  {
    forall c | c in channels
      ensures MatchesName(channels[c], key) <==> IsCalled(channels[c], key)
      ensures MatchesUrl(channels[c], Candidates(key)) <==> IsAt(channels[c], key)
    {
      IsCalledIff(channels[c], key);
      IsAtIff(channels[c], key);
    }
  }

  lemma LookupFollowsTiers(channels: Channels, late: map<string, ChannelId>, key: string)
    ensures FoundInTiers(channels, late, key, FindByKey(channels, late, key))
  {
    TiersAreAlike(channels, key);
  }

  const MAX_INDIVIDUAL_FALLBACK_REFS := 25

  // What has been found so far is what the single lookup finds; the rest is still open.
  ghost predicate FoundRight(channels: Channels, late: map<string, ChannelId>, keys: set<string>, open: set<string>,
                             found: map<string, ChannelId>) {
    && open !! found.Keys && open + found.Keys == keys && "" !in keys
    && forall k :: k in found ==> FindByKey(channels, late, k) == Some(found[k])
  }

  class SourceChannelsRepo {
    const channels: Channels
    const late: map<string, ChannelId>

    constructor (channels: Channels, late: map<string, ChannelId>)
      ensures this.channels == channels && this.late == late
    {
      this.channels, this.late := channels, late;
    }

    // ORDER BY id DESC LIMIT 1.
    method Newest(ids: set<ChannelId>) returns (id: Option<ChannelId>)
      ensures id == Greatest(ids)
    {
      var rest := ids;
      id := None;
      while rest != {}
        invariant rest <= ids && (id.Some? ==> id.value in ids)
        invariant forall x :: x in ids && x !in rest ==> id.Some? && x <= id.value
      {
        var x :| x in rest;
        rest := rest - {x};
        if id.None? || id.value < x {
          id := Some(x);
        }
      }
    }

    method FindId(ref: string) returns (id: Option<ChannelId>)
      ensures id == FindIdByRef(channels, late, ref)
      ensures FoundInTiers(channels, late, Key(ref), id)
    {
      LookupFollowsTiers(channels, late, Key(ref));
      var needle := Needle(ref);
      if needle == "" {
        return None;
      }
      var key := Lower(needle);
      id := Newest(ById(channels, key));
      if id.Some? {
        return;
      }
      id := Newest(ByName(channels, key));
      if id.Some? {
        return;
      }
      CandidatesIgnoreCase(needle);
      id := Newest(ByUrl(channels, Candidates(needle)));
      if id.Some? {
        return;
      }
      return if key in late then Some(late[key]) else None;
    }

    // One query per exact tier for all open keys.
    method ResolveById(keys: set<string>) returns (open: set<string>, found: map<string, ChannelId>)
      requires "" !in keys
      ensures FoundRight(channels, late, keys, open, found)
      ensures forall k :: k in open ==> ById(channels, k) == {}
    {
      open, found := keys, map[];
      var rest := keys;
      while rest != {}
        invariant rest <= open && FoundRight(channels, late, keys, open, found)
        invariant forall k :: k in open && k !in rest ==> ById(channels, k) == {}
      {
        var k :| k in rest;
        rest := rest - {k};
        var id := Newest(ById(channels, k));
        if id.Some? {
          found, open := found[k := id.value], open - {k};
        }
      }
    }

    method ResolveByName(keys: set<string>, open0: set<string>, found0: map<string, ChannelId>)
      returns (open: set<string>, found: map<string, ChannelId>)
      requires FoundRight(channels, late, keys, open0, found0)
      requires forall k :: k in open0 ==> ById(channels, k) == {}
      ensures FoundRight(channels, late, keys, open, found) && open <= open0
      ensures forall k :: k in open ==> ByName(channels, k) == {}
    {
      open, found := open0, found0;
      var rest := open0;
      while rest != {}
        invariant rest <= open <= open0 && FoundRight(channels, late, keys, open, found)
        invariant forall k :: k in open && k !in rest ==> ByName(channels, k) == {}
      {
        var k :| k in rest;
        rest := rest - {k};
        var id := Newest(ByName(channels, k));
        if id.Some? {
          found, open := found[k := id.value], open - {k};
        }
      }
    }

    // url_to_needle: where needles share their URLs, the last one written owns all six.
    method OwnUrls(urls: map<string, seq<string>>) returns (owner: map<string, string>)
      requires SharedAllOrNothing(urls)
      ensures Owned(urls, urls.Keys, owner)
    {
      owner := map[];
      var rest := urls.Keys;
      while rest != {}
        invariant rest <= urls.Keys && Owned(urls, urls.Keys - rest, owner)
      {
        var n :| n in rest;
        OwnedOneMore(urls, urls.Keys - rest, owner, n);
        assert urls.Keys - (rest - {n}) == urls.Keys - rest + {n};
        rest, owner := rest - {n}, owner + map u | u in urls[n] :: n;
      }
      assert urls.Keys - rest == urls.Keys;
    }

    method ResolveByUrl(keys: set<string>, open0: set<string>, found0: map<string, ChannelId>)
      returns (open: set<string>, found: map<string, ChannelId>)
      requires FoundRight(channels, late, keys, open0, found0)
      requires forall k :: k in open0 ==> ById(channels, k) == {} && ByName(channels, k) == {}
      ensures FoundRight(channels, late, keys, open, found)
    {
      var urls := map k | k in open0 :: Candidates(k);
      CandidatesShareAll(urls);
      var hits: map<string, ChannelId>;
      open, hits := HitsByUrl(urls);
      UrlHitsAreRight(channels, late, keys, open0, found0, urls, hits);
      found := found0 + hits;
    }

    method HitsByUrl(urls: map<string, seq<string>>) returns (open: set<string>, hits: map<string, ChannelId>)
      requires SharedAllOrNothing(urls)
      ensures open == urls.Keys - hits.Keys && hits.Keys <= urls.Keys
      ensures forall n :: n in hits ==> Greatest(ByUrl(channels, urls[n])) == Some(hits[n])
    {
      var owner := OwnUrls(urls);
      open, hits := FirstHits(urls, owner);
    }

    // ORDER BY id DESC: the first row on a needle wins.
    method FirstHits(urls: map<string, seq<string>>, owner: map<string, string>)
      returns (open: set<string>, hits: map<string, ChannelId>)
      requires Owned(urls, urls.Keys, owner)
      ensures open == urls.Keys - hits.Keys && hits.Keys <= urls.Keys
      ensures forall n :: n in hits ==> Greatest(ByUrl(channels, urls[n])) == Some(hits[n])
    {
      open, hits := urls.Keys, map[];
      var rows := RowsOwned(channels, owner);
      var rest := rows;
      while rest != {}
        invariant rest <= rows && open == urls.Keys - hits.Keys && hits.Keys <= urls.Keys
        invariant forall n :: n in hits ==> Greatest(ByUrl(channels, urls[n])) == Some(hits[n])
        invariant forall x :: x in rows && x !in rest ==> OwnerOf(channels, owner, x) !in open
      {
        var newest := Newest(rest);
        var x := newest.value;
        var n := OwnerOf(channels, owner, x);
        if n in open {
          FirstHitIsNewest(channels, urls, owner, rest, x, open);
          hits, open := hits[n := x], open - {n};
        }
        rest := rest - {x};
      }
    }

    // The keys still open, as far as the limit goes.
    method PickTargets(open: set<string>) returns (targets: seq<string>)
      ensures forall i, j :: 0 <= i < j < |targets| ==> targets[i] != targets[j]
      ensures forall k :: k in targets ==> k in open
      ensures |open| <= MAX_INDIVIDUAL_FALLBACK_REFS ==> forall k :: k in open ==> k in targets
    {
      var rest := open;
      targets := [];
      while rest != {} && |targets| < MAX_INDIVIDUAL_FALLBACK_REFS
        invariant rest <= open && |targets| + |rest| == |open|
        invariant forall i, j :: 0 <= i < j < |targets| ==> targets[i] != targets[j]
        invariant forall k :: k in targets ==> k in open && k !in rest
        invariant forall k :: k in open && k !in rest ==> k in targets
        decreases |rest|
      {
        var k :| k in rest;
        rest, targets := rest - {k}, targets + [k];
      }
    }

    // The slow lookup, one reference at a time.
    method AskEach(refs: seq<string>) returns (answers: seq<Option<ChannelId>>)
      ensures |answers| == |refs| && forall i :: 0 <= i < |refs| ==> answers[i] == FindIdByRef(channels, late, refs[i])
    {
      answers := [];
      for i := 0 to |refs|
        invariant |answers| == i && forall j :: 0 <= j < i ==> answers[j] == FindIdByRef(channels, late, refs[j])
      {
        var id := FindId(refs[i]);
        answers := answers + [id];
      }
    }

    // Any reference with the needle will do: the lookup normalises it again.
    method FallBack(refs: seq<string>, open0: set<string>, found0: map<string, ChannelId>)
      returns (open: set<string>, found: map<string, ChannelId>)
      requires FoundRight(channels, late, KeysOf(refs), open0, found0)
      ensures FoundRight(channels, late, KeysOf(refs), open, found)
      ensures |open0| <= MAX_INDIVIDUAL_FALLBACK_REFS ==> forall k :: k in open ==> FindByKey(channels, late, k).None?
    {
      var targets := PickTargets(open0);
      var sample := SamplesOf(refs);
      var answers := AskEach(seq(|targets|, i requires 0 <= i < |targets| => sample[targets[i]]));
      AnswersAreRight(channels, late, refs, targets, answers, open0, found0);
      var hits := HitsOf(targets, answers);
      open, found := open0 - hits.Keys, found0 + hits;
    }

    /** The batch: each reference found, with its id. What it reports is always what the
        single lookup reports; and when the keys left for the slow lookup are few enough it
        reports all that the single lookup would find. */
    method FindIdsByRefs(refs: seq<string>) returns (ids: map<string, ChannelId>, remainder: nat)
      ensures forall r :: r in ids ==> r in refs && FindIdByRef(channels, late, r) == Some(ids[r])
      ensures remainder <= 25 ==>
        forall r :: r in refs && FindIdByRef(channels, late, r).Some? ==> r in ids
    {
      var keys := KeysOf(refs);
      var open, found := ResolveById(keys);
      open, found := ResolveByName(keys, open, found);
      open, found := ResolveByUrl(keys, open, found);
      remainder := |open|;
      open, found := FallBack(refs, open, found);
      IdsAreRight(channels, late, refs, open, found);
      ids := IdsOf(refs, found);
    }
  }

  lemma UrlHitsAreRight(channels: Channels, late: map<string, ChannelId>, keys: set<string>, open: set<string>,
                        found: map<string, ChannelId>, urls: map<string, seq<string>>, hits: map<string, ChannelId>)
    requires FoundRight(channels, late, keys, open, found) && hits.Keys <= urls.Keys == open
    requires forall k :: k in open ==> ById(channels, k) == {} && ByName(channels, k) == {} && urls[k] == Candidates(k)
    requires forall n :: n in hits ==> Greatest(ByUrl(channels, urls[n])) == Some(hits[n])
    ensures FoundRight(channels, late, keys, open - hits.Keys, found + hits)
  {
    forall k | k in hits ensures Answers(channels, late, k, hits[k]) {
      assert k in open && urls[k] == Candidates(k);
      UrlHitIsRight(channels, late, k, hits[k]);
    }
    HitsJoin(channels, late, keys, open, found, hits);
  }

  ghost predicate Answers(channels: Channels, late: map<string, ChannelId>, k: string, id: ChannelId) {
    FindByKey(channels, late, k) == Some(id)
  }

  lemma HitsJoin(channels: Channels, late: map<string, ChannelId>, keys: set<string>, open: set<string>,
                 found: map<string, ChannelId>, hits: map<string, ChannelId>)
    requires FoundRight(channels, late, keys, open, found) && hits.Keys <= open
    requires forall k :: k in hits ==> Answers(channels, late, k, hits[k])
    ensures FoundRight(channels, late, keys, open - hits.Keys, found + hits)
  {
    forall k | k in found + hits ensures FindByKey(channels, late, k) == Some((found + hits)[k]) {
      if k in hits {
        assert Answers(channels, late, k, hits[k]);
      }
    }
  }

  lemma UrlHitIsRight(channels: Channels, late: map<string, ChannelId>, k: string, id: ChannelId)
    requires k != "" && ById(channels, k) == {} && ByName(channels, k) == {}
    requires Greatest(ByUrl(channels, Candidates(k))) == Some(id)
    ensures Answers(channels, late, k, id)
  {
  }

  function KeysInOrder(refs: seq<string>): (keys: seq<string>)
    ensures |keys| == |refs| && forall i :: 0 <= i < |refs| ==> keys[i] == Key(refs[i])
  {
    seq(|refs|, i requires 0 <= i < |refs| => Key(refs[i]))
  }

  // The first reference of each non-empty key.
  function FirstOfEach(keys: seq<string>, refs: seq<string>): map<string, string>
    requires |keys| == |refs|
  {
    if refs == [] then map[]
    else
      var n := |refs| - 1;
      var before := FirstOfEach(keys[..n], refs[..n]);
      if keys[n] == "" || keys[n] in before then before else before[keys[n] := refs[n]]
  }

  function SamplesOf(refs: seq<string>): map<string, string> {
    FirstOfEach(KeysInOrder(refs), refs)
  }

  function KeysOf(refs: seq<string>): (keys: set<string>)
    ensures "" !in keys
  {
    SamplesCover(refs);
    SamplesOf(refs).Keys
  }

  function IdsOf(refs: seq<string>, found: map<string, ChannelId>): map<string, ChannelId> {
    map r | r in refs && Key(r) in found :: found[Key(r)]
  }

  lemma IdsAreRight(channels: Channels, late: map<string, ChannelId>, refs: seq<string>, open: set<string>,
                    found: map<string, ChannelId>)
    requires FoundRight(channels, late, KeysOf(refs), open, found)
    ensures var ids := IdsOf(refs, found);
      && (forall r :: r in ids ==> r in refs && FindIdByRef(channels, late, r) == Some(ids[r]))
      && ((forall k :: k in open ==> FindByKey(channels, late, k).None?) ==>
            forall r :: r in refs && FindIdByRef(channels, late, r).Some? ==> r in ids)
  {
    SamplesCover(refs);
    forall r | r in refs && FindIdByRef(channels, late, r).Some? ensures Key(r) in KeysOf(refs) {
      assert Key(r) != "";
    }
  }

  predicate SampledFrom(keys: seq<string>, refs: seq<string>, key: string, sample: string) {
    exists i :: 0 <= i < |keys| && i < |refs| && keys[i] == key && refs[i] == sample
  }

  lemma {:induction false} FirstIsSampled(keys: seq<string>, refs: seq<string>)
    requires |keys| == |refs|
    ensures var m := FirstOfEach(keys, refs);
      "" !in m && forall k :: k in m ==> SampledFrom(keys, refs, k, m[k])
  {
    if refs != [] {
      var n := |refs| - 1;
      FirstIsSampled(keys[..n], refs[..n]);
      var before := FirstOfEach(keys[..n], refs[..n]);
      forall k | k in before ensures SampledFrom(keys, refs, k, before[k]) {
        var i :| 0 <= i < n && keys[..n][i] == k && refs[..n][i] == before[k];
        assert keys[i] == k && refs[i] == before[k];
      }
    }
  }

  lemma {:induction false} EachIsSampled(keys: seq<string>, refs: seq<string>, i: nat)
    requires |keys| == |refs| && i < |keys| && keys[i] != ""
    ensures keys[i] in FirstOfEach(keys, refs)
  {
    var n := |refs| - 1;
    if i < n {
      assert keys[..n][i] == keys[i];
      EachIsSampled(keys[..n], refs[..n], i);
    }
  }

  lemma SamplesCover(refs: seq<string>)
    ensures var sample := SamplesOf(refs);
      && "" !in sample
      && (forall k :: k in sample ==> Key(sample[k]) == k)
      && (forall r :: r in refs && Key(r) != "" ==> Key(r) in sample)
  {
    var keys := KeysInOrder(refs);
    FirstIsSampled(keys, refs);
    forall k | k in SamplesOf(refs) ensures Key(SamplesOf(refs)[k]) == k {
      var i :| 0 <= i < |keys| && keys[i] == k && refs[i] == SamplesOf(refs)[k];
    }
    forall r | r in refs && Key(r) != "" ensures Key(r) in SamplesOf(refs) {
      var i :| 0 <= i < |refs| && refs[i] == r;
      EachIsSampled(keys, refs, i);
    }
  }

  function HitsOf(targets: seq<string>, answers: seq<Option<ChannelId>>): map<string, ChannelId>
    requires |answers| == |targets|
  {
    if targets == [] then map[]
    else
      var n := |targets| - 1;
      var before := HitsOf(targets[..n], answers[..n]);
      if answers[n].Some? then before[targets[n] := answers[n].value] else before
  }

  lemma {:induction false} HitsAreAnswers(targets: seq<string>, answers: seq<Option<ChannelId>>)
    requires |answers| == |targets|
    requires forall i, j :: 0 <= i < j < |targets| ==> targets[i] != targets[j]
    ensures forall k :: k in HitsOf(targets, answers) ==> k in targets
    ensures forall i :: 0 <= i < |targets| ==>
      answers[i] == if targets[i] in HitsOf(targets, answers) then Some(HitsOf(targets, answers)[targets[i]]) else None
  {
    if targets != [] {
      var n := |targets| - 1;
      HitsAreAnswers(targets[..n], answers[..n]);
      forall i | 0 <= i < n ensures targets[i] in targets[..n] && targets[..n][i] == targets[i] {
      }
      assert targets[n] !in HitsOf(targets[..n], answers[..n]);
    }
  }

  lemma TargetIsAnswered(channels: Channels, late: map<string, ChannelId>, refs: seq<string>, targets: seq<string>,
                         answers: seq<Option<ChannelId>>, i: nat)
    requires |answers| == |targets| && i < |targets| && targets[i] in SamplesOf(refs)
    requires forall i, j :: 0 <= i < j < |targets| ==> targets[i] != targets[j]
    requires answers[i] == FindIdByRef(channels, late, SamplesOf(refs)[targets[i]])
    ensures var hits := HitsOf(targets, answers);
      FindByKey(channels, late, targets[i]) == if targets[i] in hits then Some(hits[targets[i]]) else None
  {
    SamplesCover(refs);
    HitsAreAnswers(targets, answers);
  }

  lemma AnswersAreRight(channels: Channels, late: map<string, ChannelId>, refs: seq<string>, targets: seq<string>,
                        answers: seq<Option<ChannelId>>, open: set<string>, found: map<string, ChannelId>)
    requires FoundRight(channels, late, KeysOf(refs), open, found)
    requires |answers| == |targets| && forall k :: k in targets ==> k in open
    requires forall i, j :: 0 <= i < j < |targets| ==> targets[i] != targets[j]
    requires forall i :: 0 <= i < |targets| ==> answers[i] == FindIdByRef(channels, late, SamplesOf(refs)[targets[i]])
    ensures var hits := HitsOf(targets, answers);
      && FoundRight(channels, late, KeysOf(refs), open - hits.Keys, found + hits)
      && forall k :: k in targets && k !in hits ==> FindByKey(channels, late, k).None?
  {
    var hits := HitsOf(targets, answers);
    HitsAreAnswers(targets, answers);
    forall k | k in targets ensures FindByKey(channels, late, k) == if k in hits then Some(hits[k]) else None {
      var i :| 0 <= i < |targets| && targets[i] == k;
      SamplesCover(refs);
      TargetIsAnswered(channels, late, refs, targets, answers, i);
    }
    MoreFound(channels, late, KeysOf(refs), open, found, hits);
  }

  lemma MoreFound(channels: Channels, late: map<string, ChannelId>, keys: set<string>, open: set<string>,
                  found: map<string, ChannelId>, hits: map<string, ChannelId>)
    requires FoundRight(channels, late, keys, open, found) && hits.Keys <= open
    requires forall k :: k in hits ==> FindByKey(channels, late, k) == Some(hits[k])
    ensures FoundRight(channels, late, keys, open - hits.Keys, found + hits)
  {
    assert (open - hits.Keys) + (found + hits).Keys == open + found.Keys;
  }

  /** Two needles share no URL or all of them. */
  ghost predicate SharedAllOrNothing(urls: map<string, seq<string>>) {
    forall m, n, u :: m in urls && n in urls && u in urls[m] && u in urls[n] ==> urls[m] == urls[n]
  }

  lemma CandidatesShareAll(urls: map<string, seq<string>>)
    requires forall k :: k in urls ==> urls[k] == Candidates(k)
    ensures SharedAllOrNothing(urls)
  {
    forall m, n, u | m in urls && n in urls && u in urls[m] && u in urls[n] ensures urls[m] == urls[n] {
      SharedUrlSharesAll(m, n, u);
    }
  }

  ghost predicate Owned(urls: map<string, seq<string>>, open: set<string>, owner: map<string, string>)
    requires open <= urls.Keys
  {
    && (forall n, u :: n in open && u in urls[n] ==> u in owner)
    && (forall u :: u in owner ==> owner[u] in open && u in urls[owner[u]])
    && (forall n, u, v :: n in open && u in urls[n] && v in urls[n] ==> owner[u] == owner[v])
  }

  lemma OwnedOneMore(urls: map<string, seq<string>>, open: set<string>, owner: map<string, string>, n: string)
    requires SharedAllOrNothing(urls) && open <= urls.Keys && n in urls && Owned(urls, open, owner)
    ensures Owned(urls, open + {n}, owner + map u | u in urls[n] :: n)
  {
  }

  function RowsOwned(channels: Channels, owner: map<string, string>): set<ChannelId> {
    set id | id in channels && channels[id].url.Some? && Lower(channels[id].url.value) in owner
  }

  function OwnerOf(channels: Channels, owner: map<string, string>, id: ChannelId): string
    requires id in RowsOwned(channels, owner)
  {
    owner[Lower(channels[id].url.value)]
  }

  lemma FirstHitIsNewest(channels: Channels, urls: map<string, seq<string>>, owner: map<string, string>,
                         rest: set<ChannelId>, x: ChannelId, open: set<string>)
    requires Owned(urls, urls.Keys, owner) && open <= urls.Keys
    requires rest <= RowsOwned(channels, owner) && x in rest && forall y :: y in rest ==> y <= x
    requires OwnerOf(channels, owner, x) in open
    requires forall y :: y in RowsOwned(channels, owner) && y !in rest ==> OwnerOf(channels, owner, y) !in open
    ensures Greatest(ByUrl(channels, urls[OwnerOf(channels, owner, x)])) == Some(x)
  {
    var n := OwnerOf(channels, owner, x);
    var hits := ByUrl(channels, urls[n]);
    assert x in hits;
    forall y | y in hits ensures y <= x {
      assert y in RowsOwned(channels, owner);
      assert OwnerOf(channels, owner, y) == n;
    }
  }

  // ----- all ways to write a reference -----

  predicate CleanName(name: string) {
    name != [] && forall c :: c in name ==> c !in "/?#@" && !IsSpace(c)
  }

  lemma {:induction false} CutAtNothing(s: string, c: char)
    requires c !in s
    ensures CutAt(s, c) == s
  {
    if s != [] {
      CutAtNothing(s[1..], c);
    }
  }

  // A clean name passes through every step after the URL prefix is gone.
  lemma CleanNameStays(name: string)
    requires CleanName(name)
    ensures RunPasses(AFTER_PREFIX, name) == name
  {
    CutAtNothing(name, '?');
    CutAtNothing(name, '#');
    assert name[0] in name && name[|name| - 1] in name;
    assert RunPass(CutQuery, name) == name && RunPass(CutFragment, name) == name && RunPass(DropSlashes, name) == name;
    assert RunPass(DropAts, name) == name && RunPass(DropBlanks, name) == name;
    StaysThrough(AFTER_PREFIX, name);
  }

  lemma {:induction false} StaysThrough(passes: seq<Pass>, s: string)
    requires forall p :: p in passes ==> RunPass(p, s) == s
    ensures RunPasses(passes, s) == s
  {
    if passes != [] {
      assert passes[0] in passes;
      StaysThrough(passes[1..], s);
    }
  }

  lemma {:induction false} NoPrefixFits(s: string, prefixes: seq<string>)
    requires forall i :: 0 <= i < |prefixes| ==> !(prefixes[i] <= Lower(s))
    ensures DropUrlPrefix(s, prefixes) == s
  {
    if prefixes != [] {
      assert !(prefixes[0] <= Lower(s));
      NoPrefixFits(s, prefixes[1..]);
    }
  }

  lemma {:induction false} OnePrefixFits(s: string, prefixes: seq<string>, i: nat)
    requires i < |prefixes| && prefixes[i] <= Lower(s)
    requires forall j :: 0 <= j < i ==> !(prefixes[j] <= Lower(s))
    ensures DropUrlPrefix(s, prefixes) == s[|prefixes[i]|..]
  {
    if i > 0 {
      assert !(prefixes[0] <= Lower(s));
      OnePrefixFits(s, prefixes[1..], i - 1);
    }
  }

  lemma NameHasNoPrefix(name: string)
    requires '/' !in name
    ensures DropUrlPrefix(name, URL_PREFIXES) == name
  {
    assert forall c :: c in Lower(name) ==> c != '/';
    forall i | 0 <= i < |URL_PREFIXES| ensures !(URL_PREFIXES[i] <= Lower(name)) {
      assert URL_PREFIXES[i][|URL_PREFIXES[i]| - 1] == '/';
    }
    NoPrefixFits(name, URL_PREFIXES);
  }

  const AFTER_PREFIX: seq<Pass> := [CutQuery, CutFragment, DropSlashes, DropAts, DropBlanks]

  lemma NeedleBySteps(ref: string)
    ensures Needle(ref) == RunPasses(AFTER_PREFIX, DropUrlPrefix(Strip(ref), URL_PREFIXES))
  {
    assert NORMALISATION[1..][1..] == AFTER_PREFIX;
    assert RunPasses(NORMALISATION, ref) == RunPasses(NORMALISATION[1..], Strip(ref));
  }

  lemma TightStays(s: string)
    requires s != [] && !IsSpace(s[0]) && !IsSpace(s[|s| - 1])
    ensures Strip(s) == s
  {
  }

  lemma PrefixedKeepsPrefix(i: nat, name: string)
    requires i < |URL_PREFIXES| && CleanName(name)
    ensures Strip(URL_PREFIXES[i] + name) == URL_PREFIXES[i] + name
    ensures DropUrlPrefix(URL_PREFIXES[i] + name, URL_PREFIXES) == name
  {
    var url := URL_PREFIXES[i] + name;
    assert url[|url| - 1] == name[|name| - 1] && name[|name| - 1] in name;
    assert !IsSpace(URL_PREFIXES[i][0]) && url[0] == URL_PREFIXES[i][0];
    TightStays(url);
    PrefixIsLower(i);
    assert URL_PREFIXES[i] <= Lower(url);
    forall j | 0 <= j < i ensures !(URL_PREFIXES[j] <= Lower(url)) {
      PrefixesDiffer(j, i, Lower(url));
    }
    OnePrefixFits(url, URL_PREFIXES, i);
  }

  lemma PrefixIsLower(i: nat)
    requires i < |URL_PREFIXES|
    ensures forall k :: 0 <= k < |URL_PREFIXES[i]| ==> LowerChar(URL_PREFIXES[i][k]) == URL_PREFIXES[i][k]
  {
  }

  lemma AtNameIsName(name: string)
    requires CleanName(name)
    ensures RunPasses(AFTER_PREFIX, "@" + name) == name
  {
    var s := "@" + name;
    CutAtNothing(s, '?');
    CutAtNothing(s, '#');
    assert s[|s| - 1] == name[|name| - 1] && name[|name| - 1] in name && name[0] in name;
    var rest := [DropAts, DropBlanks];
    assert AFTER_PREFIX[1..][1..][1..] == rest;
    assert RunPass(CutQuery, s) == s && RunPass(CutFragment, s) == s && RunPass(DropSlashes, s) == s;
    assert RunPasses(AFTER_PREFIX, s) == RunPasses(AFTER_PREFIX[1..], s) == RunPasses(AFTER_PREFIX[1..][1..], s)
        == RunPasses(rest, s);
    assert s[1..] == name;
    assert RunPass(DropAts, s) == StripAtLeft(name) == name;
    assert rest[1..] == [DropBlanks] && RunPasses(rest, s) == RunPasses([DropBlanks], name);
    TightStays(name);
    assert [DropBlanks][1..] == [];
    assert RunPasses([DropBlanks], name) == RunPasses([], name);
  }

  lemma NameForm(name: string)
    requires CleanName(name)
    ensures Needle(name) == name
  {
    CleanNameStays(name);
    TightName(name);
    TightStays(name);
    NeedleBySteps(name);
    NameHasNoPrefix(name);
  }

  lemma AtForm(name: string)
    requires CleanName(name)
    ensures Needle("@" + name) == name
  {
    CleanNameStays(name);
    TightName(name);
    TightStays("@" + name);
    NeedleBySteps("@" + name);
    NameHasNoPrefix("@" + name);
    AtNameIsName(name);
  }

  lemma UrlForm(name: string, i: nat)
    requires CleanName(name) && i < |URL_PREFIXES|
    ensures Needle(URL_PREFIXES[i] + name) == name
  {
    CleanNameStays(name);
    TightName(name);
    TightStays(name);
    NeedleBySteps(URL_PREFIXES[i] + name);
    PrefixedKeepsPrefix(i, name);
  }

  lemma TightName(name: string)
    requires CleanName(name)
    ensures name != [] && name[0] in name && name[|name| - 1] in name
  {
  }

  /** A channel is the same channel however it is written: by name, by @name, or by any of the
      six URL forms. */
  lemma AllFormsAgree(name: string, i: nat)
    requires CleanName(name) && i < |URL_PREFIXES|
    ensures Needle(name) == name && Needle("@" + name) == name && Needle(URL_PREFIXES[i] + name) == name
  {
    NameForm(name);
    AtForm(name);
    UrlForm(name, i);
  }
}
