/** The room screens: `Ruangan/List.jsx`, `Ruangan/Create.jsx` and
    `Ruangan/Edit.jsx`. */
module RuanganScreens {
  import opened Wrappers
  import opened Js
  import opened Http
  import opened Records
  import opened Mirror
  import opened Forms

  const Endpoint := "/api/ruangan"
  const NoTokenMessage := "Token tidak ditemukan. Silakan login ulang."

  const Spec := Screen(
    ["nama_ruangan", "lantai", "keterangan"],
    Endpoint,
    "/ruangan",
    "Terjadi kesalahan saat mengambil data",
    "Terjadi kesalahan saat mengupdate data",
    true)

  // ---------------------------------------------------------------- search

  /** `r.lantai?.toString() || ""`. */
  function LantaiText(l: Option<Lantai>): string {
    match l
    case None => ""
    case Some(Floor(n)) => IntToString(n)
    case Some(FloorText(s)) => s
  }

  /** The search test: name or description, lower-cased, contains the
      lower-cased keyword, or the floor's text contains the raw keyword. */
  predicate Matches(r: Ruangan, search: string) {
    var keyword := Lower(search);
    || Includes(LowerOrEmpty(r.namaRuangan), keyword)
    || Includes(LantaiText(r.lantai), search)
    || Includes(LowerOrEmpty(r.keterangan), keyword)
  }

  /** `filteredRuangan`: the rooms that match, in mirror order. */
  function Search(rs: seq<Ruangan>, search: string): (r: seq<Ruangan>)
    ensures IsSubsequence(r, rs)
    ensures forall x :: multiset(r)[x] == if Matches(x, search) then multiset(rs)[x] else 0
  {
    Filter(rs, x => Matches(x, search))
  }

  lemma MatchesEmpty(r: Ruangan)
    ensures Matches(r, "")
  {
    assert Lower("") == "";
    IncludesEmpty(LowerOrEmpty(r.namaRuangan));
  }

  /** The empty keyword keeps every room. */
  lemma SearchEmptyKeepsAll(rs: seq<Ruangan>)
    ensures Search(rs, "") == rs
  {
    forall i | 0 <= i < |rs| ensures Matches(rs[i], "") {
      MatchesEmpty(rs[i]);
    }
    FilterKeepsAll(rs, x => Matches(x, ""));
  }

  /** A room with every field absent never faults and matches only the empty
      keyword. */
  lemma BareRecordMatchesOnlyEmpty(id: string, search: string)
    ensures Matches(Ruangan(id, None, None, None), search) <==> search == ""
  {
    IncludesInEmpty(search);
    IncludesInEmpty(Lower(search));
  }

  lemma MatchesShorter(r: Ruangan, k: string, e: string)
    requires Matches(r, k + e)
    ensures Matches(r, k)
  {
    LowerAppend(k, e);
    if Includes(LowerOrEmpty(r.namaRuangan), Lower(k + e)) {
      IncludesShorterKeyword(LowerOrEmpty(r.namaRuangan), Lower(k), Lower(e));
    } else if Includes(LantaiText(r.lantai), k + e) {
      IncludesShorterKeyword(LantaiText(r.lantai), k, e);
    } else {
      IncludesShorterKeyword(LowerOrEmpty(r.keterangan), Lower(k), Lower(e));
    }
  }

  /** Typing more of the keyword only narrows the list, keeping order. */
  lemma SearchNarrows(rs: seq<Ruangan>, k: string, e: string)
    ensures IsSubsequence(Search(rs, k + e), Search(rs, k))
  {
    forall x | Matches(x, k + e) ensures Matches(x, k) {
      MatchesShorter(x, k, e);
    }
    FilterMonotone(rs, x => Matches(x, k + e), x => Matches(x, k));
  }

  /** A numeric floor is found by its decimal digits (`lantai.toString()`). */
  lemma FloorNumberFound(r: Ruangan, n: int)
    requires r.lantai == Some(Floor(n))
    ensures Matches(r, IntToString(n))
  {
    var s := IntToString(n);
    assert s[0..|s|] == s;
    assert OccursAt(s, LantaiText(r.lantai), 0);
  }

  // ---------------------------------------------------------------- list

  /** `fetchRuangan`: without a truthy token no request is made and the error
      is the fixed login message; otherwise the authorised list fetch. */
  function Fetch(s: ListState<Ruangan>, token: Option<string>, reply: Reply<seq<Ruangan>>): (f: Fetched<Ruangan>)
    ensures !Filled(token) ==>
              f == Fetched(s.(error := Some(NoTokenMessage), loading := false), [])
    ensures Filled(token) ==>
              f.requests == [Request(GET, Endpoint, Some("Bearer " + token.value), None)]
    ensures Filled(token) && reply.Ok? ==> f.state.mirror == reply.data && f.state.error.None?
    ensures Filled(token) && reply.Fail? ==> f.state.mirror == s.mirror && f.state.error == reply.error.message
    ensures !f.state.loading
  {
    if !Filled(token) then Fetched(s.(error := Some(NoTokenMessage), loading := false), [])
    else Mirror.Fetch(s, Endpoint, Some(Bearer(token)), reply)
  }

  /** On mount without a token the mirror stays empty and only the error is
      shown. */
  lemma NoTokenShowsOnlyError(token: Option<string>, reply: Reply<seq<Ruangan>>, search: string)
    requires !Filled(token)
    ensures Fetch(Mounted(), token, reply).state.mirror == []
    ensures Rows(Fetch(Mounted(), token, reply).state, x => Matches(x, search)).None?
  {
  }

  /** `handleDelete` on the room list, with the bearer header. */
  function Delete(mirror: seq<Ruangan>, token: Option<string>, id: string, confirmed: bool,
                  reply: Reply<Option<string>>): (d: Deletion<Ruangan>)
    ensures !confirmed ==> d.mirror == mirror && d.requests == []
    ensures confirmed ==> d.requests == [Request(DELETE, Endpoint + "/" + id, Some(Bearer(token)), None)]
    ensures confirmed && reply.Ok? ==>
              && IsSubsequence(d.mirror, mirror)
              && (forall i :: 0 <= i < |d.mirror| ==> d.mirror[i].id != id)
              && (forall x: Ruangan :: x.id != id ==> multiset(d.mirror)[x] == multiset(mirror)[x])
    ensures reply.Fail? ==> d.mirror == mirror
    ensures (forall i :: 0 <= i < |mirror| ==> mirror[i].id != id) ==> d.mirror == mirror
  {
    Mirror.Delete(mirror, RuanganKey, id, Endpoint + "/" + id, Some(Bearer(token)), confirmed, reply)
  }

  // ---------------------------------------------------------------- forms

  /** A floor as read into the Edit form: the server's number or string. */
  function LantaiValue(l: Option<Lantai>): Value {
    match l
    case None => Missing
    case Some(Floor(n)) => Num(n)
    case Some(FloorText(s)) => Str(s)
  }

  /** The Edit form filled from the server: exactly the three fields, copied. */
  function LoadForm(doc: Ruangan): (f: Form)
    ensures f.Keys == {"nama_ruangan", "lantai", "keterangan"}
    ensures Get(f, "nama_ruangan") == OptionalStr(doc.namaRuangan)
    ensures Get(f, "lantai") == LantaiValue(doc.lantai)
    ensures Get(f, "keterangan") == OptionalStr(doc.keterangan)
  {
    map["nama_ruangan" := OptionalStr(doc.namaRuangan),
        "lantai" := LantaiValue(doc.lantai),
        "keterangan" := OptionalStr(doc.keterangan)]
  }

  /** `fetchRuangan` of the Edit screen: one GET; success replaces the form
      and clears the error, failure reports the error chain. */
  function LoadEdit(s: FormState, id: string, reply: Reply<Ruangan>): (l: (FormState, seq<Request>))
    ensures l.1 == [Request(GET, Endpoint + "/" + id, None, None)]
    ensures reply.Ok? ==> l.0 == s.(form := LoadForm(reply.data), error := None)
    ensures reply.Fail? ==> l.0 == s.(error := Some(ErrorMessage(reply.error, Spec.loadDefault)))
  {
    var request := [Request(GET, Endpoint + "/" + id, None, None)];
    match reply
    case Ok(doc) => (s.(form := LoadForm(doc), error := None), request)
    case Fail(e) => (s.(error := Some(ErrorMessage(e, Spec.loadDefault))), request)
  }

  /** A Create or Edit submit goes to the server exactly when the name, the
      floor and the description are all truthy. */
  lemma SubmitNeedsThreeFields(s: FormState, id: string, reply: Reply<()>)
    ensures var filled := Truthy(Get(s.form, "nama_ruangan")) && Truthy(Get(s.form, "lantai"))
                          && Truthy(Get(s.form, "keterangan"));
            && (SubmitCreate(s, Spec, reply).requests != [] <==> filled)
            && (SubmitEdit(s, Spec, id, reply).requests != [] <==> filled)
  {
    assert forall k :: k in Spec.fields <==> k == "nama_ruangan" || k == "lantai" || k == "keterangan";
  }

  /** A room whose three fields are truthy, loaded and saved unchanged, is PUT
      back with exactly the server's three values. */
  lemma CompleteRecordCanBeSaved(s: FormState, id: string, doc: Ruangan, reply: Reply<()>)
    requires Filled(doc.namaRuangan) && Truthy(LantaiValue(doc.lantai)) && Filled(doc.keterangan)
    ensures var loaded := LoadEdit(s, id, Ok(doc)).0;
            SubmitEdit(loaded, Spec, id, reply).requests == [Request(PUT, Endpoint + "/" + id, None, Some(LoadForm(doc)))]
  {
    var f := LoadForm(doc);
    assert forall k :: k in Spec.fields ==> Truthy(Get(f, k));
    assert (set k | k in Spec.fields) == f.Keys;
    assert Body(Spec, f) == f;
  }

  /** A room loaded with floor number 0 cannot be saved unchanged: `!0` holds,
      so the update is blocked with the fixed message. */
  lemma LoadedZeroFloorBlocksUpdate(s: FormState, id: string, doc: Ruangan, reply: Reply<()>)
    requires doc.lantai == Some(Floor(0))
    ensures var loaded := LoadEdit(s, id, Ok(doc)).0;
            SubmitEdit(loaded, Spec, id, reply) == Submitted(loaded.(error := Some(RequiredMessage)), [], None)
  {
    var loaded := LoadEdit(s, id, Ok(doc)).0;
    assert "lantai" in Spec.fields;
    assert !Truthy(Get(loaded.form, "lantai"));
  }

  /** The PUT body carries exactly the three fields, with the form's values. */
  lemma PutBodyHasThreeFields(s: FormState, id: string, reply: Reply<()>)
    requires Validate(s.form, Spec.fields)
    ensures var body := SubmitEdit(s, Spec, id, reply).requests[0].body.value;
            && body.Keys == {"nama_ruangan", "lantai", "keterangan"}
            && body["nama_ruangan"] == Get(s.form, "nama_ruangan")
            && body["lantai"] == Get(s.form, "lantai")
            && body["keterangan"] == Get(s.form, "keterangan")
  {
    assert (set k | k in Spec.fields) == {"nama_ruangan", "lantai", "keterangan"};
  }
}
