/** Provider chains: what the settings accept, and what a resolver makes of a list of kind names.
    Text, speech-to-text and text-to-speech follow the same rules over different vocabularies. */
module Chains {
  import opened Common
  import opened Text

  const TEXT_KINDS: seq<string> := ["abrain", "llamafile_local", "local_http", "cloud_http"]
  const STT_KINDS: seq<string> := ["command", "whisper_cpp"]
  const TTS_KINDS: seq<string> := ["command", "piper"]

  datatype ChainError = EmptyChain | UnknownKind(kind: string) | DuplicateKind(kind: string)

  function NormalizeAll(raw: seq<string>): (r: seq<string>)
    ensures |r| == |raw| && forall i :: 0 <= i < |raw| ==> r[i] == Normalize(raw[i])
  {
    seq(|raw|, i requires 0 <= i < |raw| => Normalize(raw[i]))
  }

  /** What is wrong with the entry at `i`, all before it being in order. */
  function Offence(names: seq<string>, known: seq<string>, i: nat): Option<ChainError>
    requires i < |names|
  {
    if names[i] == [] || names[i] !in known then Some(UnknownKind(names[i]))
    else if names[i] in names[..i] then Some(DuplicateKind(names[i]))
    else None
  }

  /** The first offence of a list. */
  function Judge(names: seq<string>, known: seq<string>): Option<ChainError> {
    if names == [] then None
    else
      var before := Judge(names[..|names| - 1], known);
      if before.Some? then before else Offence(names, known, |names| - 1)
  }

  function Validate(raw: seq<string>, known: seq<string>): Result<seq<string>, ChainError> {
    if raw == [] then Err(EmptyChain)
    else
      var offence := Judge(NormalizeAll(raw), known);
      if offence.Some? then Err(offence.value) else Ok(NormalizeAll(raw))
  }

  /** `validate_text_chain`, `validate_stt_chain`, `validate_tts_chain`: one pass, stopping at the
      first offence. */
  method ValidateChain(raw: seq<string>, known: seq<string>) returns (r: Result<seq<string>, ChainError>)
    ensures r == Validate(raw, known)
  {
    hide Normalize, Judge;
    NothingToJudge(known);
    if raw == [] { return Err(EmptyChain); }
    var out: seq<string> := [];
    var k := 0;
    while k < |raw|
      invariant 0 <= k <= |raw|
      invariant out == NormalizeAll(raw)[..k] && Judge(out, known) == None
    {
      var n := Normalize(raw[k]);
      Examined(raw, known, k, out);
      if n == [] || n !in known { return Err(UnknownKind(n)); }
      if n in out { return Err(DuplicateKind(n)); }
      out := out + [n];
      k := k + 1;
    }
    assert NormalizeAll(raw)[..k] == NormalizeAll(raw);
    r := Ok(out);
  }

  lemma NothingToJudge(known: seq<string>)
    ensures Judge([], known) == None
  {
  }

  /** One more entry looked at. */
  lemma Examined(raw: seq<string>, known: seq<string>, k: nat, out: seq<string>)
    requires k < |raw| && out == NormalizeAll(raw)[..k] && Judge(out, known) == None
    ensures var n := Normalize(raw[k]);
      && NormalizeAll(raw)[..k + 1] == out + [n]
      && (n == [] || n !in known ==> Judge(NormalizeAll(raw), known) == Some(UnknownKind(n)))
      && (n != [] && n in known && n in out ==> Judge(NormalizeAll(raw), known) == Some(DuplicateKind(n)))
      && (n != [] && n in known && n !in out ==> Judge(out + [n], known) == None)
  {
    hide Normalize, Judge;
    var n := Normalize(raw[k]);
    assert NormalizeAll(raw)[..k + 1] == out + [n];
    JudgeSnoc(out, n, known);
    if Judge(out + [n], known).Some? { JudgeStays(NormalizeAll(raw), known, k + 1); }
  }

  lemma JudgeSnoc(names: seq<string>, n: string, known: seq<string>)
    ensures Judge(names + [n], known) ==
      if Judge(names, known).Some? then Judge(names, known)
      else if n == [] || n !in known then Some(UnknownKind(n))
      else if n in names then Some(DuplicateKind(n))
      else None
  {
    var all := names + [n];
    assert all[..|names|] == names;
  }

  /** The first offence of a prefix is the first offence of the whole. */
  lemma {:induction false} JudgeStays(names: seq<string>, known: seq<string>, k: nat)
    requires k <= |names| && Judge(names[..k], known).Some?
    ensures Judge(names, known) == Judge(names[..k], known)
    decreases |names|
  {
    if k < |names| {
      var init := names[..|names| - 1];
      assert init[..k] == names[..k];
      JudgeStays(init, known, k);
    } else {
      assert names[..k] == names;
    }
  }

  // ----- exactly what is accepted -----------------------------------------------------------

  predicate Distinct(names: seq<string>) {
    forall i, j :: 0 <= i < j < |names| ==> names[i] != names[j]
  }

  predicate AllKnown(names: seq<string>, known: seq<string>) {
    forall i :: 0 <= i < |names| ==> names[i] in known
  }

  lemma {:induction false} JudgeExact(names: seq<string>, known: seq<string>)
    requires [] !in known
    ensures Judge(names, known) == None <==> AllKnown(names, known) && Distinct(names)
  {
    if names != [] {
      var init, last := names[..|names| - 1], names[|names| - 1];
      JudgeExact(init, known);
      assert forall i :: 0 <= i < |init| ==> init[i] == names[i];
      if last in init {
        var i :| 0 <= i < |init| && init[i] == last;
        assert names[i] == names[|names| - 1];
      }
    }
  }

  /** A chain is accepted exactly when it is not empty and, up to trimming and case, lists known
      kinds without repeating one; the result is its normal form. */
  lemma ValidateExact(raw: seq<string>, known: seq<string>)
    requires [] !in known
    ensures Validate(raw, known).Ok? <==>
      raw != [] && AllKnown(NormalizeAll(raw), known) && Distinct(NormalizeAll(raw))
    ensures Validate(raw, known).Ok? ==> Validate(raw, known).value == NormalizeAll(raw)
  {
    JudgeExact(NormalizeAll(raw), known);
  }

  /** Entry `i` is the first that is unknown, or else repeats an earlier one, and `e` says so. */
  predicate FirstWrong(names: seq<string>, known: seq<string>, i: nat, e: ChainError) {
    && i < |names|
    && (names[i] !in known ==> e == UnknownKind(names[i]))
    && (names[i] in known ==> names[i] in names[..i] && e == DuplicateKind(names[i]))
    && AllKnown(names[..i], known) && Distinct(names[..i])
  }

  lemma {:induction false} FirstOffence(names: seq<string>, known: seq<string>) returns (i: nat)
    requires [] !in known && Judge(names, known).Some?
    ensures FirstWrong(names, known, i, Judge(names, known).value)
  {
    var init := names[..|names| - 1];
    if Judge(init, known).Some? {
      i := FirstOffence(init, known);
      assert init[..i] == names[..i];
    } else {
      i := |names| - 1;
      JudgeExact(init, known);
    }
  }

  /** An empty chain is rejected as such, any other one for its first wrong entry: everything before
      it is known and distinct. */
  lemma RejectedExactly(raw: seq<string>, known: seq<string>, e: ChainError)
    requires [] !in known
    ensures Validate(raw, known) == Err(e) <==>
      if raw == [] then e == EmptyChain else exists i :: FirstWrong(NormalizeAll(raw), known, i, e)
  {
    hide Judge, Normalize;
    var names := NormalizeAll(raw);
    if Validate(raw, known) == Err(e) && raw != [] {
      var i := FirstOffence(names, known);
    }
    if i :| raw != [] && FirstWrong(names, known, i, e) {
      assert !AllKnown(names, known) || !Distinct(names);
      JudgeExact(names, known);
      var j := FirstOffence(names, known);
      OneFirst(names, known, i, e, j, Judge(names, known).value);
    }
  }

  lemma OneFirst(names: seq<string>, known: seq<string>, i: nat, e: ChainError, j: nat, f: ChainError)
    requires FirstWrong(names, known, i, e) && FirstWrong(names, known, j, f)
    ensures i == j && e == f
  {
    if i < j {
      NotBoth(names, known, i, j, e);
    } else if j < i {
      NotBoth(names, known, j, i, f);
    }
  }

  /** What is wrong at `i` is not in order before `j`. */
  lemma NotBoth(names: seq<string>, known: seq<string>, i: nat, j: nat, e: ChainError)
    requires i < j <= |names| && FirstWrong(names, known, i, e)
    ensures !(AllKnown(names[..j], known) && Distinct(names[..j]))
  {
    assert names[..j][i] == names[i];
    if names[i] in known {
      var k :| 0 <= k < i && names[..i][k] == names[i];
      assert names[..j][k] == names[..j][i];
    }
  }

  /** Validating an accepted chain again changes nothing. */
  lemma ValidateIdempotent(raw: seq<string>, known: seq<string>)
    requires Validate(raw, known).Ok?
    ensures Validate(Validate(raw, known).value, known) == Validate(raw, known)
  {
    hide Normalize, Judge;
    var v := NormalizeAll(raw);
    forall i | 0 <= i < |v| ensures NormalizeAll(v)[i] == v[i] { NormalizeIdempotent(raw[i]); }
    assert NormalizeAll(v) == v;
  }

  // ----- from kind names to kinds -----------------------------------------------------------

  /** A kind is its position in the vocabulary. */
  function IndexIn(name: string, known: seq<string>): (r: Option<nat>)
    ensures r.Some? <==> name in known
    ensures r.Some? ==> r.value < |known| && known[r.value] == name
  {
    if known == [] then None
    else if known[0] == name then Some(0)
    else match IndexIn(name, known[1..]) case None => None case Some(i) => Some(i + 1)
  }

  function KindOf(item: string, known: seq<string>): seq<nat> {
    match IndexIn(Normalize(item), known) case None => [] case Some(i) => [i]
  }

  /** The known kinds of a chain, in order; unknown names are dropped. */
  function KindsOf(chain: seq<string>, known: seq<string>): (ks: seq<nat>)
    ensures forall i :: 0 <= i < |ks| ==> ks[i] < |known|
  {
    if chain == [] then []
    else KindsOf(chain[..|chain| - 1], known) + KindOf(chain[|chain| - 1], known)
  }

  /** Without any known kind, the first of the vocabulary stands in. */
  function ResolvedKinds(chain: seq<string>, known: seq<string>): (ks: seq<nat>)
    requires known != []
    ensures ks != [] && forall i :: 0 <= i < |ks| ==> ks[i] < |known|
  {
    var ks := KindsOf(chain, known);
    if ks == [] then [0] else ks
  }

  /** Where the known entries of a chain stand. */
  function KnownAt(chain: seq<string>, known: seq<string>): (at: seq<nat>)
    ensures forall j :: 0 <= j < |at| ==> at[j] < |chain|
  {
    if chain == [] then []
    else
      var before := KnownAt(chain[..|chain| - 1], known);
      if Normalize(chain[|chain| - 1]) in known then before + [|chain| - 1] else before
  }

  /** The known entries, each at its place and in order, and no others. */
  lemma {:induction false} KnownAtExactly(chain: seq<string>, known: seq<string>)
    ensures var at := KnownAt(chain, known);
      && (forall i, j :: 0 <= i < j < |at| ==> at[i] < at[j])
      && (forall k: nat :: k in at <==> k < |chain| && Normalize(chain[k]) in known)
  {
    hide Normalize;
    if chain != [] {
      var init := chain[..|chain| - 1];
      KnownAtExactly(init, known);
      assert forall k :: 0 <= k < |init| ==> init[k] == chain[k];
      assert forall k :: 0 <= k < |chain| - 1 ==> (k in KnownAt(init, known) <==> Normalize(chain[k]) in known);
    }
  }

  /** The kinds of a chain name its known entries one by one; unknown ones are dropped. */
  lemma {:induction false} KindsExactly(chain: seq<string>, known: seq<string>)
    requires known != []
    ensures var ks, at := KindsOf(chain, known), KnownAt(chain, known);
      && |ks| == |at| && forall j :: 0 <= j < |ks| ==> ks[j] < |known| && known[ks[j]] == Normalize(chain[at[j]])
  {
    hide Normalize, IndexIn;
    if chain != [] {
      var init := chain[..|chain| - 1];
      KindsExactly(init, known);
      assert forall j :: 0 <= j < |KnownAt(init, known)| ==> chain[KnownAt(init, known)[j]] == init[KnownAt(init, known)[j]];
    }
  }

  /** Where no entry is known, the first kind of the vocabulary stands in. */
  lemma DefaultExactly(chain: seq<string>, known: seq<string>)
    requires known != []
    ensures ResolvedKinds(chain, known) ==
      if exists k :: 0 <= k < |chain| && Normalize(chain[k]) in known then KindsOf(chain, known) else [0]
  {
    hide Normalize, KindsOf, KnownAt;
    KindsExactly(chain, known);
    KnownAtExactly(chain, known);
    var at := KnownAt(chain, known);
    if at != [] { assert at[0] in at; }
    if k :| 0 <= k < |chain| && Normalize(chain[k]) in known { assert k in at; }
  }

  predicate Names(ks: seq<nat>, known: seq<string>, chain: seq<string>) {
    && |ks| == |chain|
    && (forall i :: 0 <= i < |ks| ==> ks[i] < |known| && known[ks[i]] == chain[i])
  }

  lemma {:induction false} NormalKinds(chain: seq<string>, known: seq<string>)
    requires AllKnown(chain, known) && NormalizeAll(chain) == chain
    ensures Names(KindsOf(chain, known), known, chain)
  {
    hide Normalize, IndexIn;
    if chain != [] {
      var init, last := chain[..|chain| - 1], chain[|chain| - 1];
      assert NormalizeAll(init) == init by {
        forall i | 0 <= i < |init| ensures NormalizeAll(init)[i] == init[i] {
          assert NormalizeAll(chain)[i] == chain[i];
        }
      }
      NormalKinds(init, known);
      assert Normalize(last) == NormalizeAll(chain)[|chain| - 1] == last;
      assert last in known;
    }
  }

  /** A resolver built from an accepted chain has exactly its kinds, in its order, none twice. */
  lemma AcceptedKinds(raw: seq<string>, known: seq<string>)
    requires known != [] && [] !in known && Validate(raw, known).Ok?
    ensures var v := Validate(raw, known).value;
      && Names(ResolvedKinds(v, known), known, v)
      && (forall i, j :: 0 <= i < j < |v| ==> ResolvedKinds(v, known)[i] != ResolvedKinds(v, known)[j])
  {
    hide Normalize, KindsOf;
    var v := Validate(raw, known).value;
    ValidateExact(raw, known);
    ValidateIdempotent(raw, known);
    NormalKinds(v, known);
  }
}
