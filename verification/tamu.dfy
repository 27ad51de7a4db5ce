/** The visitor screens: `DaftarTamu/List.jsx`, `DaftarTamu/Create.jsx` and
    `DaftarTamu/Edit.jsx`. */
module TamuScreens {
  import opened Wrappers
  import opened Js
  import opened Http
  import opened Records
  import opened Mirror
  import opened Forms

  const Endpoint := "/api/daftarTamu"
  const StaffPath := "/api/daftarPegawai"

  const Spec := Screen(
    ["nama_tamu", "no_telepon", "keperluan", "waktu_kunjungan", "id_pegawai"],
    Endpoint,
    "/daftar-tamu",
    "Gagal mengambil data",
    "Gagal mengupdate data",
    false)

  // ---------------------------------------------------------------- search

  /** `t.id_pegawai?.nama`. */
  function HostName(t: Tamu): Option<string> {
    match Doc(t.pegawai)
    case None => None
    case Some(p) => p.nama
  }

  /** `t.id_pegawai?.id_ruangan?.nama_ruangan`: two embedded levels. */
  function HostRoomName(t: Tamu): Option<string> {
    match Doc(t.pegawai)
    case None => None
    case Some(p) =>
      match Doc(p.ruangan)
      case None => None
      case Some(r) => r.namaRuangan
  }

  /** The search test: visitor name, purpose, host name or host's room name,
      lower-cased, contains the lower-cased keyword, or the phone number
      contains the raw keyword. */
  predicate Matches(t: Tamu, search: string) {
    var keyword := Lower(search);
    || Includes(LowerOrEmpty(t.namaTamu), keyword)
    || Includes(OrEmpty(t.noTelepon), search)
    || Includes(LowerOrEmpty(t.keperluan), keyword)
    || Includes(LowerOrEmpty(HostName(t)), keyword)
    || Includes(LowerOrEmpty(HostRoomName(t)), keyword)
  }

  /** `filteredTamu`: the visitors that match, in mirror order. */
  function Search(ts: seq<Tamu>, search: string): (r: seq<Tamu>)
    ensures IsSubsequence(r, ts)
    ensures forall x :: multiset(r)[x] == if Matches(x, search) then multiset(ts)[x] else 0
  {
    Filter(ts, x => Matches(x, search))
  }

  /** The empty keyword keeps every visitor. */
  lemma SearchEmptyKeepsAll(ts: seq<Tamu>)
    ensures Search(ts, "") == ts
  {
    forall i | 0 <= i < |ts| ensures Matches(ts[i], "") {
      assert Lower("") == "";
      IncludesEmpty(LowerOrEmpty(ts[i].namaTamu));
    }
    FilterKeepsAll(ts, x => Matches(x, ""));
  }

  /** A missing host, a host given only as an id, or a host without an
      embedded room contributes nothing and never faults: such a visitor is
      found exactly by its own fields. */
  lemma MissingHostContributesNothing(t: Tamu, search: string)
    requires !t.pegawai.Embedded? || (HostName(t).None? && !t.pegawai.doc.ruangan.Embedded?)
    ensures Matches(t, search) <==>
            || Includes(LowerOrEmpty(t.namaTamu), Lower(search))
            || Includes(OrEmpty(t.noTelepon), search)
            || Includes(LowerOrEmpty(t.keperluan), Lower(search))
            || search == ""
  {
    IncludesInEmpty(Lower(search));
    if search == "" {
      assert Lower("") == "";
      IncludesEmpty(LowerOrEmpty(t.namaTamu));
    }
  }

  /** A host with an embedded record but no embedded room: the room's name
      contributes nothing, and the host's own name still counts. */
  lemma HostWithoutRoomContributesNothing(t: Tamu, search: string)
    requires t.pegawai.Embedded? && !t.pegawai.doc.ruangan.Embedded?
    ensures Matches(t, search) <==>
            || Includes(LowerOrEmpty(t.namaTamu), Lower(search))
            || Includes(OrEmpty(t.noTelepon), search)
            || Includes(LowerOrEmpty(t.keperluan), Lower(search))
            || Includes(LowerOrEmpty(t.pegawai.doc.nama), Lower(search))
            || search == ""
  {
    IncludesInEmpty(Lower(search));
    if search == "" {
      assert Lower("") == "";
      IncludesEmpty(LowerOrEmpty(t.namaTamu));
    }
  }

  lemma MatchesShorter(t: Tamu, k: string, e: string)
    requires Matches(t, k + e)
    ensures Matches(t, k)
  {
    LowerAppend(k, e);
    var lk, le := Lower(k), Lower(e);
    if Includes(LowerOrEmpty(t.namaTamu), lk + le) {
      IncludesShorterKeyword(LowerOrEmpty(t.namaTamu), lk, le);
    } else if Includes(OrEmpty(t.noTelepon), k + e) {
      IncludesShorterKeyword(OrEmpty(t.noTelepon), k, e);
    } else if Includes(LowerOrEmpty(t.keperluan), lk + le) {
      IncludesShorterKeyword(LowerOrEmpty(t.keperluan), lk, le);
    } else if Includes(LowerOrEmpty(HostName(t)), lk + le) {
      IncludesShorterKeyword(LowerOrEmpty(HostName(t)), lk, le);
    } else {
      IncludesShorterKeyword(LowerOrEmpty(HostRoomName(t)), lk, le);
    }
  }

  /** Typing more of the keyword only narrows the list, keeping order. */
  lemma SearchNarrows(ts: seq<Tamu>, k: string, e: string)
    ensures IsSubsequence(Search(ts, k + e), Search(ts, k))
  {
    forall x | Matches(x, k + e) ensures Matches(x, k) {
      MatchesShorter(x, k, e);
    }
    FilterMonotone(ts, x => Matches(x, k + e), x => Matches(x, k));
  }

  // ---------------------------------------------------------------- list

  /** `fetchTamu`: the unauthorised list fetch on mount. */
  function Fetch(s: ListState<Tamu>, reply: Reply<seq<Tamu>>): (f: Fetched<Tamu>)
    ensures f.requests == [Request(GET, Endpoint, None, None)]
    ensures reply.Ok? ==> f.state.mirror == reply.data && f.state.error.None?
    ensures reply.Fail? ==> f.state.mirror == s.mirror && f.state.error == reply.error.message
    ensures !f.state.loading
  {
    Mirror.Fetch(s, Endpoint, None, reply)
  }

  /** `handleDelete` on the visitor list. */
  function Delete(mirror: seq<Tamu>, id: string, confirmed: bool, reply: Reply<Option<string>>): (d: Deletion<Tamu>)
    ensures !confirmed ==> d.mirror == mirror && d.requests == []
    ensures confirmed ==> d.requests == [Request(DELETE, Endpoint + "/" + id, None, None)]
    ensures confirmed && reply.Ok? ==>
              && IsSubsequence(d.mirror, mirror)
              && (forall i :: 0 <= i < |d.mirror| ==> d.mirror[i].id != id)
              && (forall x: Tamu :: x.id != id ==> multiset(d.mirror)[x] == multiset(mirror)[x])
    ensures reply.Fail? ==> d.mirror == mirror
    ensures (forall i :: 0 <= i < |mirror| ==> mirror[i].id != id) ==> d.mirror == mirror
  {
    Mirror.Delete(mirror, TamuKey, id, Endpoint + "/" + id, None, confirmed, reply)
  }

  // ---------------------------------------------------------------- create

  /** The Create screen's state: the form plus `ruanganPegawai`, the room of
      the chosen host shown beside the form (`NoRef` is `null`). */
  datatype CreateState = CreateState(base: FormState, ruanganPegawai: Ref<Ruangan>)

  function CreateMounted(): CreateState {
    CreateState(FormState(Blank(Spec.fields), None, false), NoRef)
  }

  /** `handleChange` of the Create screen. Choosing a host looks the host up
      by id in the loaded staff list and shows its room (`?.id_ruangan ||
      null`); any other field leaves the shown room alone. */
  function Change(s: CreateState, staff: seq<Pegawai>, name: string, value: string): (t: CreateState)
    ensures t.base == s.base.(form := Forms.Change(s.base.form, name, value))
    ensures name != "id_pegawai" ==> t.ruanganPegawai == s.ruanganPegawai
    ensures name == "id_pegawai" && (forall j :: 0 <= j < |staff| ==> staff[j].id != value) ==>
              t.ruanganPegawai == NoRef
    ensures name == "id_pegawai" ==>
              forall i :: 0 <= i < |staff| && staff[i].id == value && (forall j :: 0 <= j < i ==> staff[j].id != value)
                ==> t.ruanganPegawai == OrNull(staff[i].ruangan)
  {
    var room :=
      if name == "id_pegawai" then
        match Find(staff, PegawaiKey, value)
        case None => NoRef
        case Some(p) => OrNull(p.ruangan)
      else s.ruanganPegawai;
    CreateState(s.base.(form := Forms.Change(s.base.form, name, value)), room)
  }

  /** The shown room, when there is one, is the room of a staff member whose
      id is the chosen host. */
  lemma ShownRoomBelongsToHost(s: CreateState, staff: seq<Pegawai>, value: string)
    requires RefTruthy(Change(s, staff, "id_pegawai", value).ruanganPegawai)
    ensures exists p :: p in staff && p.id == value && p.ruangan == Change(s, staff, "id_pegawai", value).ruanganPegawai
  {
    var p := Find(staff, PegawaiKey, value).value;
    assert p in staff;
  }

  /** `handleSubmit` of the Create screen: the shared submit, and a successful
      POST also clears the shown room. */
  function Submit(s: CreateState, reply: Reply<()>): (o: (CreateState, seq<Request>))
    ensures o.1 == SubmitCreate(s.base, Spec, reply).requests
    ensures o.0.base == SubmitCreate(s.base, Spec, reply).state
    ensures Validate(s.base.form, Spec.fields) && reply.Ok? ==>
              o.0.ruanganPegawai == NoRef && forall k :: k in Spec.fields ==> Get(o.0.base.form, k) == Str("")
    ensures !(Validate(s.base.form, Spec.fields) && reply.Ok?) ==> o.0.ruanganPegawai == s.ruanganPegawai
  {
    var submitted := SubmitCreate(s.base, Spec, reply);
    var room := if Validate(s.base.form, Spec.fields) && reply.Ok? then NoRef else s.ruanganPegawai;
    (CreateState(submitted.state, room), submitted.requests)
  }

  /** `handleReset`: fields back to `""`, shown room and error cleared. */
  function Reset(s: CreateState): (t: CreateState)
    ensures t.base == Forms.Reset(s.base, Spec)
    ensures t.ruanganPegawai == NoRef
    ensures !Validate(t.base.form, Spec.fields)
  {
    BlankFailsValidation(Spec.fields);
    CreateState(Forms.Reset(s.base, Spec), NoRef)
  }

  /** Reset returns the Create screen to the state it had on mount, apart
      from the loading flag. */
  lemma ResetIsMounted(s: CreateState)
    requires !s.base.loading
    ensures Reset(s) == CreateMounted()
  {
  }

  // ---------------------------------------------------------------- edit

  /** The Edit form filled from the server: the five fields, the visit time
      cut to its first sixteen characters (`YYYY-MM-DDTHH:MM`), the host
      replaced by its id. */
  function LoadForm(t: Tamu): (f: Form)
    ensures f.Keys == set k | k in Spec.fields
    ensures Get(f, "nama_tamu") == OptionalStr(t.namaTamu)
    ensures Get(f, "no_telepon") == OptionalStr(t.noTelepon)
    ensures Get(f, "keperluan") == OptionalStr(t.keperluan)
    ensures t.waktuKunjungan.None? <==> Get(f, "waktu_kunjungan") == Missing
    ensures t.waktuKunjungan.Some? ==>
              && Get(f, "waktu_kunjungan").Str?
              && Get(f, "waktu_kunjungan").s <= t.waktuKunjungan.value
              && |Get(f, "waktu_kunjungan").s| == if |t.waktuKunjungan.value| < 16 then |t.waktuKunjungan.value| else 16
    ensures Get(f, "id_pegawai") == RefId(t.pegawai, PegawaiKey)
  {
    assert (set k | k in Spec.fields) == {"nama_tamu", "no_telepon", "keperluan", "waktu_kunjungan", "id_pegawai"};
    map["nama_tamu" := OptionalStr(t.namaTamu),
        "no_telepon" := OptionalStr(t.noTelepon),
        "keperluan" := OptionalStr(t.keperluan),
        "waktu_kunjungan" := if t.waktuKunjungan.None? then Missing else Str(Substring0(t.waktuKunjungan.value, 16)),
        "id_pegawai" := RefId(t.pegawai, PegawaiKey)]
  }

  /** `fetchData` of the Edit screen: the visitor, then the staff list. */
  function LoadEdit(s: FormState, staff: seq<Pegawai>, id: string,
                    record: Reply<Tamu>, staffReply: Reply<seq<Pegawai>>): (l: Loaded<Pegawai>)
    ensures record.Fail? ==> l.requests == [Request(GET, Endpoint + "/" + id, None, None)]
    ensures record.Ok? ==>
              l.requests == [Request(GET, Endpoint + "/" + id, None, None), Request(GET, StaffPath, None, None)]
    ensures record.Ok? && staffReply.Ok? ==> l.state.form == LoadForm(record.data) && l.state.error.None?
    ensures record.Fail? ==> l.state.form == s.form && l.state.error == Some(ErrorMessage(record.error, "Gagal mengambil data"))
    ensures record.Ok? && staffReply.Fail? ==>
              l.state.form == s.form && l.state.error == Some(ErrorMessage(staffReply.error, "Gagal mengambil data"))
  {
    LoadWithOptions(s, staff, Spec, id, record, LoadForm, StaffPath, staffReply)
  }

  /** A complete visitor with an embedded host, loaded and saved unchanged,
      is PUT back with exactly the loaded form. */
  lemma CompleteRecordCanBeSaved(s: FormState, staff: seq<Pegawai>, id: string, t: Tamu,
                                 staffReply: Reply<seq<Pegawai>>, reply: Reply<()>)
    requires Filled(t.namaTamu) && Filled(t.noTelepon) && Filled(t.keperluan) && Filled(t.waktuKunjungan)
    requires t.pegawai.Embedded? && t.pegawai.doc.id != ""
    requires staffReply.Ok?
    ensures var loaded := LoadEdit(s, staff, id, Ok(t), staffReply).state;
            SubmitEdit(loaded, Spec, id, reply).requests == [Request(PUT, Endpoint + "/" + id, None, Some(LoadForm(t)))]
  {
    var f := LoadForm(t);
    assert |Get(f, "waktu_kunjungan").s| > 0;
    assert forall k :: k in Spec.fields ==> Truthy(Get(f, k));
  }

  /** An update that the server rejects without any message shows the
      screen's own default and stays on the page. */
  lemma UpdateFailureDefault(s: FormState, id: string)
    requires Validate(s.form, Spec.fields)
    ensures var o := SubmitEdit(s, Spec, id, Fail(HttpError(None, None)));
            o.state.error == Some("Gagal mengupdate data") && o.navigateTo.None?
  {
  }

  /** A Create or Edit submit goes to the server exactly when all five fields
      are truthy. */
  lemma SubmitNeedsFiveFields(s: FormState, id: string, reply: Reply<()>)
    ensures var filled := && Truthy(Get(s.form, "nama_tamu")) && Truthy(Get(s.form, "no_telepon"))
                          && Truthy(Get(s.form, "keperluan")) && Truthy(Get(s.form, "waktu_kunjungan"))
                          && Truthy(Get(s.form, "id_pegawai"));
            && (SubmitCreate(s, Spec, reply).requests != [] <==> filled)
            && (SubmitEdit(s, Spec, id, reply).requests != [] <==> filled)
  {
    assert forall k :: k in Spec.fields <==>
      k == "nama_tamu" || k == "no_telepon" || k == "keperluan" || k == "waktu_kunjungan" || k == "id_pegawai";
  }
}
