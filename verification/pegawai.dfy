/** The employee screens: `DaftarPegawai/List.jsx`, `DaftarPegawai/Create.jsx`
    and `DaftarPegawai/Edit.jsx`. */
module PegawaiScreens {
  import opened Wrappers
  import opened Js
  import opened Http
  import opened Records
  import opened Mirror
  import opened Forms

  const Endpoint := "/api/daftarPegawai"
  const RoomsPath := "/api/ruangan"

  const Spec := Screen(
    ["id_pegawai", "nama", "tanggal_lahir", "no_telpon", "jabatan", "id_ruangan"],
    Endpoint,
    "/daftar-pegawai",
    "Terjadi kesalahan saat mengambil data",
    "Terjadi kesalahan saat mengupdate data",
    false)

  // ---------------------------------------------------------------- search

  /** `p.id_ruangan?.nama_ruangan`: only an embedded room has a name. */
  function RoomName(p: Pegawai): Option<string> {
    match Doc(p.ruangan)
    case None => None
    case Some(r) => r.namaRuangan
  }

  /** The search test: staff number, name, position or room name, lower-cased,
      contains the lower-cased keyword, or the phone number contains the raw
      keyword. */
  predicate Matches(p: Pegawai, search: string) {
    var keyword := Lower(search);
    || Includes(LowerOrEmpty(p.idPegawai), keyword)
    || Includes(LowerOrEmpty(p.nama), keyword)
    || Includes(OrEmpty(p.noTelpon), search)
    || Includes(LowerOrEmpty(p.jabatan), keyword)
    || Includes(LowerOrEmpty(RoomName(p)), keyword)
  }

  /** `filteredPegawai`: the employees that match, in mirror order. */
  function Search(ps: seq<Pegawai>, search: string): (r: seq<Pegawai>)
    ensures IsSubsequence(r, ps)
    ensures forall x :: multiset(r)[x] == if Matches(x, search) then multiset(ps)[x] else 0
  {
    Filter(ps, x => Matches(x, search))
  }

  /** The empty keyword keeps every employee. */
  lemma SearchEmptyKeepsAll(ps: seq<Pegawai>)
    ensures Search(ps, "") == ps
  {
    forall i | 0 <= i < |ps| ensures Matches(ps[i], "") {
      assert Lower("") == "";
      IncludesEmpty(LowerOrEmpty(ps[i].idPegawai));
    }
    FilterKeepsAll(ps, x => Matches(x, ""));
  }

  /** An employee with every field absent, or whose room is only an id stub,
      never faults and matches only the empty keyword. */
  lemma BareRecordMatchesOnlyEmpty(id: string, room: Ref<Ruangan>, search: string)
    requires !room.Embedded?
    ensures Matches(Pegawai(id, None, None, None, None, None, room), search) <==> search == ""
  {
    IncludesInEmpty(search);
    IncludesInEmpty(Lower(search));
  }

  lemma MatchesShorter(p: Pegawai, k: string, e: string)
    requires Matches(p, k + e)
    ensures Matches(p, k)
  {
    LowerAppend(k, e);
    var lk, le := Lower(k), Lower(e);
    if Includes(LowerOrEmpty(p.idPegawai), lk + le) {
      IncludesShorterKeyword(LowerOrEmpty(p.idPegawai), lk, le);
    } else if Includes(LowerOrEmpty(p.nama), lk + le) {
      IncludesShorterKeyword(LowerOrEmpty(p.nama), lk, le);
    } else if Includes(OrEmpty(p.noTelpon), k + e) {
      IncludesShorterKeyword(OrEmpty(p.noTelpon), k, e);
    } else if Includes(LowerOrEmpty(p.jabatan), lk + le) {
      IncludesShorterKeyword(LowerOrEmpty(p.jabatan), lk, le);
    } else {
      IncludesShorterKeyword(LowerOrEmpty(RoomName(p)), lk, le);
    }
  }

  /** Typing more of the keyword only narrows the list, keeping order. */
  lemma SearchNarrows(ps: seq<Pegawai>, k: string, e: string)
    ensures IsSubsequence(Search(ps, k + e), Search(ps, k))
  {
    forall x | Matches(x, k + e) ensures Matches(x, k) {
      MatchesShorter(x, k, e);
    }
    FilterMonotone(ps, x => Matches(x, k + e), x => Matches(x, k));
  }

  /** The worked example: of Budi (Staff) and Sari (Manager), the keyword
      "man" keeps only Sari, through the case-insensitive position. */
  lemma SearchExample()
    ensures var budi := Pegawai("1", None, Some("Budi"), None, None, Some("Staff"), NoRef);
            var sari := Pegawai("2", None, Some("Sari"), None, None, Some("Manager"), NoRef);
            Search([budi, sari], "man") == [sari]
  {
    var budi := Pegawai("1", None, Some("Budi"), None, None, Some("Staff"), NoRef);
    var sari := Pegawai("2", None, Some("Sari"), None, None, Some("Manager"), NoRef);
    assert Lower("man") == "man";
    assert Lower("Manager") == "manager";
    assert "manager"[0..3] == "man";
    assert OccursAt("man", "manager", 0);
    assert Lower("Budi") == "budi";
    assert Lower("Staff") == "staff";
    IncludesNeedsFirstChar("budi", "man");
    IncludesNeedsFirstChar("staff", "man");
    assert !Includes("", "man");
    assert !Matches(budi, "man");
    assert Matches(sari, "man");
    assert [budi, sari][1..] == [sari];
    assert [sari][1..] == [];
  }

  // ---------------------------------------------------------------- list

  /** `fetchPegawai`: the unauthorised list fetch on mount. */
  function Fetch(s: ListState<Pegawai>, reply: Reply<seq<Pegawai>>): (f: Fetched<Pegawai>)
    ensures f.requests == [Request(GET, Endpoint, None, None)]
    ensures reply.Ok? ==> f.state.mirror == reply.data && f.state.error.None?
    ensures reply.Fail? ==> f.state.mirror == s.mirror && f.state.error == reply.error.message
    ensures !f.state.loading
  {
    Mirror.Fetch(s, Endpoint, None, reply)
  }

  /** `handleDelete` on the employee list. */
  function Delete(mirror: seq<Pegawai>, id: string, confirmed: bool, reply: Reply<Option<string>>): (d: Deletion<Pegawai>)
    ensures !confirmed ==> d.mirror == mirror && d.requests == []
    ensures confirmed ==> d.requests == [Request(DELETE, Endpoint + "/" + id, None, None)]
    ensures confirmed && reply.Ok? ==>
              && IsSubsequence(d.mirror, mirror)
              && (forall i :: 0 <= i < |d.mirror| ==> d.mirror[i].id != id)
              && (forall x: Pegawai :: x.id != id ==> multiset(d.mirror)[x] == multiset(mirror)[x])
    ensures reply.Fail? ==> d.mirror == mirror
    ensures (forall i :: 0 <= i < |mirror| ==> mirror[i].id != id) ==> d.mirror == mirror
  {
    Mirror.Delete(mirror, PegawaiKey, id, Endpoint + "/" + id, None, confirmed, reply)
  }

  // ---------------------------------------------------------------- forms

  /** The Edit form filled from the server: the six fields, the birth date
      cut to its first ten characters, the room replaced by its id. */
  function LoadForm(p: Pegawai): (f: Form)
    ensures f.Keys == set k | k in Spec.fields
    ensures Get(f, "id_pegawai") == OptionalStr(p.idPegawai)
    ensures Get(f, "nama") == OptionalStr(p.nama)
    ensures Get(f, "no_telpon") == OptionalStr(p.noTelpon)
    ensures Get(f, "jabatan") == OptionalStr(p.jabatan)
    ensures p.tanggalLahir.None? <==> Get(f, "tanggal_lahir") == Missing
    ensures p.tanggalLahir.Some? ==>
              && Get(f, "tanggal_lahir").Str?
              && Get(f, "tanggal_lahir").s <= p.tanggalLahir.value
              && |Get(f, "tanggal_lahir").s| == if |p.tanggalLahir.value| < 10 then |p.tanggalLahir.value| else 10
    ensures Get(f, "id_ruangan") == RefId(p.ruangan, RuanganKey)
  {
    assert (set k | k in Spec.fields) == {"id_pegawai", "nama", "tanggal_lahir", "no_telpon", "jabatan", "id_ruangan"};
    map["id_pegawai" := OptionalStr(p.idPegawai),
        "nama" := OptionalStr(p.nama),
        "tanggal_lahir" := if p.tanggalLahir.None? then Missing else Str(Substring0(p.tanggalLahir.value, 10)),
        "no_telpon" := OptionalStr(p.noTelpon),
        "jabatan" := OptionalStr(p.jabatan),
        "id_ruangan" := RefId(p.ruangan, RuanganKey)]
  }

  /** `fetchData` of the Edit screen: the employee, then the room list. */
  function LoadEdit(s: FormState, rooms: seq<Ruangan>, id: string,
                    record: Reply<Pegawai>, roomsReply: Reply<seq<Ruangan>>): (l: Loaded<Ruangan>)
    ensures record.Fail? ==> l.requests == [Request(GET, Endpoint + "/" + id, None, None)]
    ensures record.Ok? ==>
              l.requests == [Request(GET, Endpoint + "/" + id, None, None), Request(GET, RoomsPath, None, None)]
    ensures record.Ok? && roomsReply.Ok? ==> l.state.form == LoadForm(record.data) && l.state.error.None?
    ensures record.Fail? ==> l.state.form == s.form && l.state.error == Some(ErrorMessage(record.error, Spec.loadDefault))
    ensures record.Ok? && roomsReply.Fail? ==>
              l.state.form == s.form && l.state.error == Some(ErrorMessage(roomsReply.error, Spec.loadDefault))
  {
    LoadWithOptions(s, rooms, Spec, id, record, LoadForm, RoomsPath, roomsReply)
  }

  /** The loaded birth date is stable: loading a value that was itself loaded
      and saved gives the same field back. */
  lemma BirthDateStable(p: Pegawai, date: string)
    requires p.tanggalLahir == Some(date)
    ensures var once := Get(LoadForm(p), "tanggal_lahir").s;
            Get(LoadForm(p.(tanggalLahir := Some(once))), "tanggal_lahir") == Str(once)
  {
    Substring0Idempotent(date, 10);
  }

  /** A complete employee with an embedded room, loaded and saved unchanged,
      is PUT back with exactly the loaded form. */
  lemma CompleteRecordCanBeSaved(s: FormState, rooms: seq<Ruangan>, id: string, p: Pegawai,
                                 roomsReply: Reply<seq<Ruangan>>, reply: Reply<()>)
    requires Filled(p.idPegawai) && Filled(p.nama) && Filled(p.tanggalLahir)
    requires Filled(p.noTelpon) && Filled(p.jabatan)
    requires p.ruangan.Embedded? && p.ruangan.doc.id != ""
    requires roomsReply.Ok?
    ensures var loaded := LoadEdit(s, rooms, id, Ok(p), roomsReply).state;
            SubmitEdit(loaded, Spec, id, reply).requests == [Request(PUT, Endpoint + "/" + id, None, Some(LoadForm(p)))]
  {
    var f := LoadForm(p);
    assert |Get(f, "tanggal_lahir").s| > 0;
    assert forall k :: k in Spec.fields ==> Truthy(Get(f, k));
  }

  /** When the server sends the room only as an id stub, or not at all, the
      loaded form has no room id and cannot be saved until one is chosen. */
  lemma UnembeddedRoomBlocksUpdate(s: FormState, rooms: seq<Ruangan>, id: string, p: Pegawai,
                                   roomsReply: Reply<seq<Ruangan>>, reply: Reply<()>)
    requires !p.ruangan.Embedded? && roomsReply.Ok?
    ensures var loaded := LoadEdit(s, rooms, id, Ok(p), roomsReply).state;
            SubmitEdit(loaded, Spec, id, reply).requests == []
  {
    var loaded := LoadEdit(s, rooms, id, Ok(p), roomsReply).state;
    assert "id_ruangan" in Spec.fields;
    assert !Truthy(Get(loaded.form, "id_ruangan"));
  }

  /** A Create or Edit submit goes to the server exactly when all six fields
      are truthy. */
  lemma SubmitNeedsSixFields(s: FormState, id: string, reply: Reply<()>)
    ensures var filled := && Truthy(Get(s.form, "id_pegawai")) && Truthy(Get(s.form, "nama"))
                          && Truthy(Get(s.form, "tanggal_lahir")) && Truthy(Get(s.form, "no_telpon"))
                          && Truthy(Get(s.form, "jabatan")) && Truthy(Get(s.form, "id_ruangan"));
            && (SubmitCreate(s, Spec, reply).requests != [] <==> filled)
            && (SubmitEdit(s, Spec, id, reply).requests != [] <==> filled)
  {
    assert forall k :: k in Spec.fields <==>
      k == "id_pegawai" || k == "nama" || k == "tanggal_lahir" || k == "no_telpon" || k == "jabatan" || k == "id_ruangan";
  }
}
