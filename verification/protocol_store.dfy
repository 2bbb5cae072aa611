/**
 * The user's protocol library store: a list of protocols with add, add-custom, remove,
 * progress update and membership test. Custom protocols get an id made of a slug of
 * their name and the creation time.
 */
module ProtocolStore {
  import opened Wrappers
  import opened Text
  import opened ProtocolData

  predicate HasId(protocols: seq<Protocol>, id: string) {
    exists i :: 0 <= i < |protocols| && protocols[i].id == id
  }

  /** The store's invariant: no two protocols share an id. */
  predicate DistinctIds(protocols: seq<Protocol>) {
    forall i, j :: 0 <= i < j < |protocols| ==> protocols[i].id != protocols[j].id
  }

  // ----- Slugs -----

  /** A character that the slug keeps: [a-z0-9]. */
  predicate IsSlugChar(c: char) {
    'a' <= c <= 'z' || '0' <= c <= '9'
  }

  /** The characters of `s` that are [a-z0-9], in order. */
  function Alnum(s: string): string {
    if s == [] then [] else (if IsSlugChar(s[0]) then [s[0]] else []) + Alnum(s[1..])
  }

  lemma {:induction false} AlnumAppend(a: string, b: string)
    ensures Alnum(a + b) == Alnum(a) + Alnum(b)
  {
    if a != [] {
      assert (a + b)[0] == a[0];
      assert (a + b)[1..] == a[1..] + b;
      AlnumAppend(a[1..], b);
    } else {
      assert a + b == b;
    }
  }

  /** The rest of `s` after its leading run of characters outside [a-z0-9]. */
  function DropSeparators(s: string): (r: string)
    ensures |r| <= |s|
    ensures r == [] || IsSlugChar(r[0])
    ensures Alnum(r) == Alnum(s)
  {
    if s != [] && !IsSlugChar(s[0]) then
      assert Alnum(s) == Alnum(s[1..]);
      DropSeparators(s[1..])
    else s
  }

  /** A dash-separated word: [a-z0-9] and '-', never two dashes in a row. */
  predicate IsDashed(s: string) {
    && (forall i :: 0 <= i < |s| ==> IsSlugChar(s[i]) || s[i] == '-')
    && (forall i, j :: 0 <= i < |s| && 0 <= j < |s| && j == i + 1 && s[i] == '-' ==> s[j] != '-')
  }

  /** Each maximal run of characters outside [a-z0-9] becomes one dash. */
  function CollapseRuns(s: string): (r: string)
    ensures IsDashed(r)
    ensures r == [] <==> s == []
    ensures s != [] && IsSlugChar(s[0]) ==> r[0] == s[0]
    ensures s != [] && !IsSlugChar(s[0]) ==> r[0] == '-'
    ensures Alnum(r) == Alnum(s)
    decreases |s|
  {
    if s == [] then []
    else if IsSlugChar(s[0]) then
      var rest := CollapseRuns(s[1..]);
      assert Alnum(s) == [s[0]] + Alnum(s[1..]);
      DashedCons(s[0], rest);
      [s[0]] + rest
    else
      var tail := DropSeparators(s[1..]);
      var rest := CollapseRuns(tail);
      assert Alnum(s) == Alnum(s[1..]);
      assert Alnum("-" + rest) == Alnum(rest);
      DashedCons('-', rest);
      "-" + rest
  }

  /** A slug character or a dash not followed by another dash extends a dashed word on the left. */
  lemma DashedCons(c: char, rest: string)
    requires IsDashed(rest) && (IsSlugChar(c) || c == '-')
    requires c == '-' ==> rest == [] || rest[0] != '-'
    ensures IsDashed([c] + rest)
  {
    var r := [c] + rest;
    assert forall i :: 1 <= i < |r| ==> r[i] == rest[i - 1];
  }

  function DropLeadingDashes(s: string): (r: string)
    ensures |r| <= |s| && r == s[|s| - |r|..]
    ensures r == [] || r[0] != '-'
    ensures forall i :: 0 <= i < |s| - |r| ==> s[i] == '-'
  {
    if s != [] && s[0] == '-' then DropLeadingDashes(s[1..]) else s
  }

  function DropTrailingDashes(s: string): (r: string)
    ensures |r| <= |s| && r == s[..|r|]
    ensures r == [] || r[|r| - 1] != '-'
    ensures forall i :: |r| <= i < |s| ==> s[i] == '-'
  {
    if s != [] && s[|s| - 1] == '-' then DropTrailingDashes(s[..|s| - 1]) else s
  }

  /** Dashes trimmed from both ends of a string. */
  function TrimDashes(s: string): string {
    DropTrailingDashes(DropLeadingDashes(s))
  }

  /** A slice of a dash-separated word is one too. */
  lemma DashedSlice(s: string, lo: nat, hi: nat)
    requires IsDashed(s) && lo <= hi <= |s|
    ensures IsDashed(s[lo..hi])
  {
    var t := s[lo..hi];
    assert forall i :: 0 <= i < |t| ==> t[i] == s[lo + i];
  }

  /** Trimming keeps a dash-separated word dash-separated. */
  lemma TrimDashesKeepsDashed(s: string)
    requires IsDashed(s)
    ensures IsDashed(TrimDashes(s))
  {
    var l := DropLeadingDashes(s);
    DashedSlice(s, |s| - |l|, |s|);
    DashedSlice(l, 0, |DropTrailingDashes(l)|);
  }

  lemma {:induction false} DropLeadingKeepsAlnum(s: string)
    ensures Alnum(DropLeadingDashes(s)) == Alnum(s)
  {
    if s != [] && s[0] == '-' {
      DropLeadingKeepsAlnum(s[1..]);
    }
  }

  lemma {:induction false} DropTrailingKeepsAlnum(s: string)
    ensures Alnum(DropTrailingDashes(s)) == Alnum(s)
  {
    if s != [] && s[|s| - 1] == '-' {
      var init := s[..|s| - 1];
      assert s == init + [s[|s| - 1]];
      AlnumAppend(init, [s[|s| - 1]]);
      assert Alnum([s[|s| - 1]]) == [];
      DropTrailingKeepsAlnum(init);
    }
  }

  /** Trimming loses no [a-z0-9] character. */
  lemma TrimDashesKeepsAlnum(s: string)
    ensures Alnum(TrimDashes(s)) == Alnum(s)
  {
    DropLeadingKeepsAlnum(s);
    DropTrailingKeepsAlnum(DropLeadingDashes(s));
  }

  // ----- Words: the reference meaning of a slug -----

  /** The leading run of [a-z0-9] characters of `s`, as long as it goes. */
  function TakeWord(s: string): (w: string)
    ensures |w| <= |s| && w == s[..|w|]
    ensures forall i :: 0 <= i < |w| ==> IsSlugChar(w[i])
    ensures |w| == |s| || !IsSlugChar(s[|w|])
  {
    if s != [] && IsSlugChar(s[0]) then [s[0]] + TakeWord(s[1..]) else []
  }

  /** The maximal runs of [a-z0-9] characters of `s`, in order. */
  function Words(s: string): (ws: seq<string>)
    ensures forall k :: 0 <= k < |ws| ==> ws[k] != []
    decreases |s|
  {
    var t := DropSeparators(s);
    if t == [] then []
    else
      var w := TakeWord(t);
      [w] + Words(t[|w|..])
  }

  /** Words joined with single dashes between them. */
  function JoinDash(ws: seq<string>): string {
    if ws == [] then []
    else if |ws| == 1 then ws[0]
    else ws[0] + "-" + JoinDash(ws[1..])
  }

  /** Separators in front of the text do not change its words. */
  lemma WordsAfterSeparators(s: string)
    ensures Words(DropSeparators(s)) == Words(s)
  {
    var t := DropSeparators(s);
    assert DropSeparators(t) == t;
  }

  /** A run of [a-z0-9] characters passes through the collapse unchanged. */
  lemma {:induction false} CollapseAfterWord(w: string, rest: string)
    requires forall i :: 0 <= i < |w| ==> IsSlugChar(w[i])
    ensures CollapseRuns(w + rest) == w + CollapseRuns(rest)
    decreases |w|
  {
    if w != [] {
      var s := w + rest;
      assert CollapseRuns(s) == [w[0]] + CollapseRuns(w[1..] + rest) by {
        assert s[0] == w[0] && IsSlugChar(s[0]);
        assert s[1..] == w[1..] + rest;
      }
      CollapseAfterWord(w[1..], rest);
      assert [w[0]] + (w[1..] + CollapseRuns(rest)) == w + CollapseRuns(rest) by {
        assert w == [w[0]] + w[1..];
      }
    } else {
      assert w + rest == rest;
    }
  }

  /** Trailing dashes of a text that is not all dashes are trimmed whatever precedes it. */
  lemma {:induction false} DropTrailingAfter(a: string, x: string)
    requires DropTrailingDashes(x) != []
    ensures DropTrailingDashes(a + x) == a + DropTrailingDashes(x)
    decreases |x|
  {
    if x[|x| - 1] == '-' {
      var init := x[..|x| - 1];
      assert (a + x)[..|a + x| - 1] == a + init;
      DropTrailingAfter(a, init);
    }
  }

  /** A text that starts with a word: that word, then the words and collapse of what follows. */
  lemma FirstWordStep(t: string)
    requires t != [] && IsSlugChar(t[0])
    ensures var w := TakeWord(t); var rest := t[|w|..];
      && w != [] && IsSlugChar(w[|w| - 1])
      && Words(t) == [w] + Words(DropSeparators(rest))
      && CollapseRuns(t) == (if rest == [] then w else (w + "-") + CollapseRuns(DropSeparators(rest)))
  {
    var w := TakeWord(t);
    var rest := t[|w|..];
    assert DropSeparators(t) == t;
    WordsAfterSeparators(rest);
    assert t == w + rest;
    FirstWordCollapse(w, rest);
  }

  /** The collapse of a word followed by a text that is empty or starts with a separator. */
  lemma FirstWordCollapse(w: string, rest: string)
    requires forall i :: 0 <= i < |w| ==> IsSlugChar(w[i])
    requires rest == [] || !IsSlugChar(rest[0])
    ensures CollapseRuns(w + rest) == (if rest == [] then w else (w + "-") + CollapseRuns(DropSeparators(rest)))
  {
    CollapseAfterWord(w, rest);
    if rest == [] {
      assert w + [] == w;
    } else {
      var c := CollapseRuns(DropSeparators(rest[1..]));
      assert DropSeparators(rest) == DropSeparators(rest[1..]);
      assert CollapseRuns(rest) == "-" + c;
      assert w + ("-" + c) == (w + "-") + c;
    }
  }

  /** A word, with or without one dash after it, trims to the word. */
  lemma TrimWord(w: string)
    requires w != [] && IsSlugChar(w[|w| - 1])
    ensures DropTrailingDashes(w) == w
    ensures DropTrailingDashes(w + "-") == w
  {
    assert (w + "-")[..|w|] == w;
  }

  /** A text made of one word and perhaps separators after it: the word is all that is left. */
  lemma LastWord(t: string)
    requires t != [] && IsSlugChar(t[0])
    requires var w := TakeWord(t); var rest := t[|w|..]; rest == [] || DropSeparators(rest) == []
    ensures DropTrailingDashes(CollapseRuns(t)) == JoinDash(Words(t))
  {
    FirstWordStep(t);
    var w := TakeWord(t);
    var rest := t[|w|..];
    assert Words(t) == [w] by { assert Words([]) == []; }
    assert JoinDash([w]) == w;
    TrimWord(w);
    if rest != [] {
      assert CollapseRuns(DropSeparators(rest)) == [];
      assert (w + "-") + [] == w + "-";
    }
  }

  /**
   * From the first word on, the collapsed text is the words joined by dashes, followed by one
   * dash when the text ends in separators.
   */
  lemma {:induction false} CollapseRunsJoinsWords(t: string)
    requires t == [] || IsSlugChar(t[0])
    ensures DropTrailingDashes(CollapseRuns(t)) == JoinDash(Words(t))
    decreases |t|
  {
    if t != [] {
      var w := TakeWord(t);
      var rest := t[|w|..];
      var next := DropSeparators(rest);
      if rest == [] || next == [] {
        LastWord(t);
      } else {
        assert |w| >= 1;
        CollapseRunsJoinsWords(next);
        JoinStep(t);
      }
    }
  }

  /** A word, separators, then more words: the word, one dash, then the rest joined. */
  lemma JoinStep(t: string)
    requires t != [] && IsSlugChar(t[0])
    requires var w := TakeWord(t); var next := DropSeparators(t[|w|..]);
      t[|w|..] != [] && next != [] && DropTrailingDashes(CollapseRuns(next)) == JoinDash(Words(next))
    ensures DropTrailingDashes(CollapseRuns(t)) == JoinDash(Words(t))
  {
    FirstWordStep(t);
    var w := TakeWord(t);
    var rest := t[|w|..];
    var next := DropSeparators(rest);
    var c := CollapseRuns(next);
    var ws := Words(next);
    JoinDashStartsWithFirst(ws);
    assert rest != [];
    DropTrailingAfter(w + "-", c);
    assert Words(t) == [w] + ws;
    JoinDashCons(w, ws);
  }

  lemma JoinDashCons(w: string, ws: seq<string>)
    requires ws != []
    ensures JoinDash([w] + ws) == w + "-" + JoinDash(ws)
  {
    assert ([w] + ws)[1..] == ws;
  }

  lemma JoinDashStartsWithFirst(ws: seq<string>)
    requires ws != [] && ws[0] != []
    ensures JoinDash(ws) != [] && JoinDash(ws)[0] == ws[0][0]
  {
  }

  /**
   * The name lower-cased, each run of characters outside [a-z0-9] made one dash, and dashes
   * removed from both ends.
   */
  function Slug(name: string): (slug: string)
    ensures IsDashed(slug)
    ensures slug == [] || (slug[0] != '-' && slug[|slug| - 1] != '-')
    ensures Alnum(slug) == Alnum(Lower(name))
    ensures slug == JoinDash(Words(Lower(name)))
  {
    var c := CollapseRuns(Lower(name));
    TrimDashesKeepsDashed(c);
    TrimDashesKeepsAlnum(c);
    SlugJoinsWords(Lower(name));
    TrimDashes(c)
  }

  /** Collapsing, then trimming the dashes at both ends, joins the words with single dashes. */
  lemma SlugJoinsWords(s: string)
    ensures TrimDashes(CollapseRuns(s)) == JoinDash(Words(s))
  {
    var t := DropSeparators(s);
    WordsAfterSeparators(s);
    LeadingSeparatorsCollapse(s);
    NoLeadingDash(t);
    CollapseRunsJoinsWords(t);
  }

  /** Without its leading dash, the collapsed text is the collapse of what follows the separators. */
  lemma LeadingSeparatorsCollapse(s: string)
    ensures DropLeadingDashes(CollapseRuns(s)) == DropLeadingDashes(CollapseRuns(DropSeparators(s)))
  {
    if s != [] && !IsSlugChar(s[0]) {
      var t := DropSeparators(s[1..]);
      assert DropSeparators(s) == t;
      assert CollapseRuns(s) == "-" + CollapseRuns(t);
      assert ("-" + CollapseRuns(t))[1..] == CollapseRuns(t);
    }
  }

  /** The collapse of a text that starts with a word, or is empty, starts with no dash. */
  lemma NoLeadingDash(t: string)
    requires t == [] || IsSlugChar(t[0])
    ensures DropLeadingDashes(CollapseRuns(t)) == CollapseRuns(t)
  {
  }

  /** A lowercase word of letters and digits. */
  predicate IsWord(w: string) {
    w != [] && forall i :: 0 <= i < |w| ==> IsSlugChar(w[i])
  }

  /** A run of characters that stay outside [a-z0-9] after lower-casing. */
  predicate IsSeparatorRun(sep: string) {
    sep != [] && forall i :: 0 <= i < |sep| ==> !IsSlugChar(LowerChar(sep[i]))
  }

  lemma {:induction false} TakeWordOf(w: string, rest: string)
    requires forall i :: 0 <= i < |w| ==> IsSlugChar(w[i])
    requires rest == [] || !IsSlugChar(rest[0])
    ensures TakeWord(w + rest) == w
    decreases |w|
  {
    if w == [] {
      assert w + rest == rest;
    } else {
      assert (w + rest)[0] == w[0];
      assert (w + rest)[1..] == w[1..] + rest;
      TakeWordOf(w[1..], rest);
      assert [w[0]] + w[1..] == w;
    }
  }

  lemma {:induction false} DropSeparatorsOf(sep: string, v: string)
    requires forall i :: 0 <= i < |sep| ==> !IsSlugChar(sep[i])
    requires v == [] || IsSlugChar(v[0])
    ensures DropSeparators(sep + v) == v
    decreases |sep|
  {
    if sep == [] {
      assert sep + v == v;
    } else {
      assert (sep + v)[0] == sep[0];
      assert (sep + v)[1..] == sep[1..] + v;
      DropSeparatorsOf(sep[1..], v);
    }
  }

  lemma WordsOfWord(w: string)
    requires IsWord(w)
    ensures Words(w) == [w]
  {
    assert DropSeparators(w) == w;
    TakeWordOf(w, []);
    assert w + [] == w;
    assert Words([]) == [];
  }

  /** A name that is one lowercase word is its own slug. */
  lemma SlugOfWord(w: string)
    requires IsWord(w)
    ensures Slug(w) == w
  {
    assert Lower(w) == w;
    WordsOfWord(w);
  }

  /** Two words with a run of separators between them: the words joined by one dash. */
  lemma SlugOfTwoWords(u: string, sep: string, v: string)
    requires IsWord(u) && IsSeparatorRun(sep) && IsWord(v)
    ensures Slug(u + sep + v) == u + "-" + v
  {
    var lsep := Lower(sep);
    assert Lower(u + sep + v) == u + (lsep + v);
    var s := u + (lsep + v);
    assert DropSeparators(s) == s;
    TakeWordOf(u, lsep + v);
    assert s[|u|..] == lsep + v;
    DropSeparatorsOf(lsep, v);
    WordsOfWord(v);
    assert Words(s) == [u] + [v];
    assert JoinDash([u, v]) == u + "-" + JoinDash([v]);
  }

  // ----- Custom protocols -----

  /** The fields a user supplies for a custom protocol; absent ones get defaults. */
  datatype CustomProtocolData = CustomProtocolData(
    name: string, category: Option<Category>, description: Option<string>,
    duration: Option<string>, durationSeconds: Option<int>,
    steps: seq<string>, benefits: seq<string>, references: Option<seq<string>>)

  /** `value || fallback` for an optional string: absent or empty gives the fallback. */
  function OrText(value: Option<string>, fallback: string): (r: string)
    ensures value.Some? && value.value != "" ==> r == value.value
    ensures value.None? || value.value == "" ==> r == fallback
  {
    if value.Some? && value.value != "" then value.value else fallback
  }

  /** The id of a custom protocol created at time `now`: the name's slug, a dash, the time. */
  function CustomId(name: string, now: nat): string {
    Slug(name) + "-" + NatToString(now)
  }

  /** The protocol built by addCustomProtocol, with its defaults. */
  function NewCustomProtocol(data: CustomProtocolData, now: nat): (p: Protocol)
    ensures p.id == CustomId(data.name, now) && p.name == data.name
    ensures p.category == (if data.category.Some? then data.category.value else Breathing)
    ensures p.duration == OrText(data.duration, "15 min")
    ensures p.durationSeconds == (if data.durationSeconds.Some? && data.durationSeconds.value != 0 then data.durationSeconds.value else 900)
    ensures p.description == OrText(data.description, data.name)
    ensures p.completed == 0 && p.total == 10
    ensures p.steps == data.steps && p.benefits == data.benefits
    ensures p.references == (if data.references.Some? then data.references.value else [])
  {
    Protocol(
      CustomId(data.name, now), data.name,
      data.category.GetOr(Breathing),
      OrText(data.duration, "15 min"),
      if data.durationSeconds.Some? && data.durationSeconds.value != 0 then data.durationSeconds.value else 900,
      OrText(data.description, data.name),
      0, 10, data.steps, data.benefits, data.references.GetOr([]))
  }

  /** Two custom protocols with the same name but created at different times get different ids. */
  lemma CustomIdsDifferInTime(name: string, t1: nat, t2: nat)
    requires t1 != t2
    ensures CustomId(name, t1) != CustomId(name, t2)
  {
    var prefix := Slug(name) + "-";
    if CustomId(name, t1) == CustomId(name, t2) {
      assert NatToString(t1) == CustomId(name, t1)[|prefix|..];
      assert NatToString(t2) == CustomId(name, t2)[|prefix|..];
      NatToStringParses(t1);
      NatToStringParses(t2);
    }
  }

  // ----- List operations -----

  /** addProtocol: unchanged if the id is present, else the protocol appended with no progress. */
  function WithProtocol(protocols: seq<Protocol>, protocol: Protocol): (r: seq<Protocol>)
    ensures HasId(protocols, protocol.id) ==> r == protocols
    ensures !HasId(protocols, protocol.id) ==>
      |r| == |protocols| + 1 && r[..|protocols|] == protocols && r[|protocols|] == protocol.(completed := 0)
  {
    if HasId(protocols, protocol.id) then protocols else protocols + [protocol.(completed := 0)]
  }

  /** addCustomProtocol's list update: unchanged on an id collision, else the protocol appended. */
  function WithCustom(protocols: seq<Protocol>, protocol: Protocol): (r: seq<Protocol>)
    ensures HasId(protocols, protocol.id) ==> r == protocols
    ensures !HasId(protocols, protocol.id) ==> r == protocols + [protocol]
  {
    if HasId(protocols, protocol.id) then protocols else protocols + [protocol]
  }

  /** removeProtocol: the protocols whose id differs, in their order. */
  function WithoutId(protocols: seq<Protocol>, id: string): (r: seq<Protocol>)
    ensures |r| <= |protocols|
    ensures !HasId(r, id)
    ensures forall p :: p in r <==> p in protocols && p.id != id
  {
    if protocols == [] then []
    else
      var rest := WithoutId(protocols[1..], id);
      if protocols[0].id == id then rest else [protocols[0]] + rest
  }

  /** Removal distributes over concatenation, so the survivors keep their relative order. */
  lemma {:induction false} WithoutIdAppend(a: seq<Protocol>, b: seq<Protocol>, id: string)
    ensures WithoutId(a + b, id) == WithoutId(a, id) + WithoutId(b, id)
  {
    if a != [] {
      assert (a + b)[0] == a[0];
      assert (a + b)[1..] == a[1..] + b;
      WithoutIdAppend(a[1..], b, id);
    } else {
      assert a + b == b;
    }
  }

  /** Removing an absent id changes nothing. */
  lemma {:induction false} WithoutAbsentId(protocols: seq<Protocol>, id: string)
    requires !HasId(protocols, id)
    ensures WithoutId(protocols, id) == protocols
  {
    if protocols != [] {
      assert !HasId(protocols[1..], id) by {
        forall i | 0 <= i < |protocols[1..]| ensures protocols[1..][i].id != id {
          assert protocols[1..][i] == protocols[i + 1];
        }
      }
      WithoutAbsentId(protocols[1..], id);
    }
  }

  /** updateProgress: the matching protocols get the new `completed`; nothing else changes. */
  function WithProgress(protocols: seq<Protocol>, id: string, completed: int): (r: seq<Protocol>)
    ensures |r| == |protocols|
    ensures forall i :: 0 <= i < |r| ==> r[i].(completed := protocols[i].completed) == protocols[i]
    ensures forall i :: 0 <= i < |r| ==>
      r[i].completed == (if protocols[i].id == id then completed else protocols[i].completed)
  {
    seq(|protocols|, i requires 0 <= i < |protocols| =>
      if protocols[i].id == id then protocols[i].(completed := completed) else protocols[i])
  }

  // ----- The invariant -----

  lemma WithProtocolKeepsDistinct(protocols: seq<Protocol>, protocol: Protocol)
    requires DistinctIds(protocols)
    ensures DistinctIds(WithProtocol(protocols, protocol))
    ensures HasId(WithProtocol(protocols, protocol), protocol.id)
  {
    var r := WithProtocol(protocols, protocol);
    if !HasId(protocols, protocol.id) {
      assert r[|protocols|].id == protocol.id;
    }
  }

  lemma WithCustomKeepsDistinct(protocols: seq<Protocol>, protocol: Protocol)
    requires DistinctIds(protocols)
    ensures DistinctIds(WithCustom(protocols, protocol))
    ensures HasId(WithCustom(protocols, protocol), protocol.id)
  {
    var r := WithCustom(protocols, protocol);
    if !HasId(protocols, protocol.id) {
      assert r[|protocols|].id == protocol.id;
    }
  }

  lemma {:induction false} WithoutIdKeepsDistinct(protocols: seq<Protocol>, id: string)
    requires DistinctIds(protocols)
    ensures DistinctIds(WithoutId(protocols, id))
  {
    if protocols != [] {
      var rest := WithoutId(protocols[1..], id);
      assert DistinctIds(protocols[1..]) by {
        forall i, j | 0 <= i < j < |protocols[1..]| ensures protocols[1..][i].id != protocols[1..][j].id {
          assert protocols[1..][i] == protocols[i + 1] && protocols[1..][j] == protocols[j + 1];
        }
      }
      WithoutIdKeepsDistinct(protocols[1..], id);
      if protocols[0].id != id {
        forall j | 0 <= j < |rest| ensures rest[j].id != protocols[0].id {
          assert rest[j] in protocols[1..];
        }
      }
    }
  }

  lemma WithProgressKeepsDistinct(protocols: seq<Protocol>, id: string, completed: int)
    requires DistinctIds(protocols)
    ensures DistinctIds(WithProgress(protocols, id, completed))
  {
    var r := WithProgress(protocols, id, completed);
    assert forall i :: 0 <= i < |r| ==> r[i].id == protocols[i].id;
  }

  // ----- The store -----

  class ProtocolLibrary {
    var userProtocols: seq<Protocol>

    ghost predicate Valid()
      reads this
    {
      DistinctIds(userProtocols)
    }

    constructor()
      ensures Valid() && userProtocols == []
    {
      userProtocols := [];
    }

    /** Adds a protocol with its progress reset, unless one with the same id is present. */
    method AddProtocol(protocol: Protocol)
      requires Valid()
      modifies this
      ensures Valid() && HasProtocol(protocol.id)
      ensures userProtocols == WithProtocol(old(userProtocols), protocol)
    {
      WithProtocolKeepsDistinct(userProtocols, protocol);
      if HasId(userProtocols, protocol.id) {
        return;
      }
      userProtocols := userProtocols + [protocol.(completed := 0)];
    }

    /** Builds a custom protocol created at time `now`, adds it unless its id exists, returns it. */
    method AddCustomProtocol(protocolData: CustomProtocolData, now: nat) returns (newProtocol: Protocol)
      requires Valid()
      modifies this
      ensures Valid() && HasProtocol(newProtocol.id)
      ensures newProtocol == NewCustomProtocol(protocolData, now)
      ensures userProtocols == WithCustom(old(userProtocols), newProtocol)
    {
      newProtocol := NewCustomProtocol(protocolData, now);
      WithCustomKeepsDistinct(userProtocols, newProtocol);
      if HasId(userProtocols, newProtocol.id) {
        return;
      }
      userProtocols := userProtocols + [newProtocol];
    }

    /** Removes every protocol with the id. */
    method RemoveProtocol(id: string)
      requires Valid()
      modifies this
      ensures Valid() && !HasProtocol(id)
      ensures userProtocols == WithoutId(old(userProtocols), id)
    {
      WithoutIdKeepsDistinct(userProtocols, id);
      userProtocols := WithoutId(userProtocols, id);
    }

    /** Sets the progress of the protocol with the id (not bounded by its total). */
    method UpdateProgress(id: string, completed: int)
      requires Valid()
      modifies this
      ensures Valid()
      ensures userProtocols == WithProgress(old(userProtocols), id, completed)
    {
      WithProgressKeepsDistinct(userProtocols, id, completed);
      userProtocols := WithProgress(userProtocols, id, completed);
    }

    /** Whether some protocol has the id. */
    function HasProtocol(id: string): (b: bool)
      reads this
      ensures b <==> exists i :: 0 <= i < |userProtocols| && userProtocols[i].id == id
    {
      FirstIndexOf(userProtocols, id) < |userProtocols|
    }
  }
}
