/** The three kinds of record the screens show: rooms (`ruangan`), employees
    (`daftarPegawai`) and visitors (`daftarTamu`). Every field the server may
    omit is an `Option`; `id` is the server-assigned `_id`. */
module Records {
  import opened Wrappers
  import opened Js

  /** A reference field: absent, an id-only stub (a bare string), or the
      referenced record embedded in full. */
  datatype Ref<+T> = NoRef | IdRef(key: string) | Embedded(doc: T)

  /** A room's `lantai` (floor): the server may send a number or a string. */
  datatype Lantai = Floor(n: int) | FloorText(s: string)

  datatype Ruangan = Ruangan(
    id: string,
    namaRuangan: Option<string>,
    lantai: Option<Lantai>,
    keterangan: Option<string>)

  datatype Pegawai = Pegawai(
    id: string,
    idPegawai: Option<string>,
    nama: Option<string>,
    tanggalLahir: Option<string>,
    noTelpon: Option<string>,
    jabatan: Option<string>,
    ruangan: Ref<Ruangan>)

  datatype Tamu = Tamu(
    id: string,
    namaTamu: Option<string>,
    noTelepon: Option<string>,
    keperluan: Option<string>,
    waktuKunjungan: Option<string>,
    pegawai: Ref<Pegawai>)

  /** `ref?.field` reads a field only from an embedded record: an absent
      reference and a bare id string both give `undefined`. */
  function Doc<T>(r: Ref<T>): Option<T> {
    if r.Embedded? then Some(r.doc) else None
  }

  /** Truthiness of a reference: an embedded object or a non-empty id. */
  predicate RefTruthy<T>(r: Ref<T>) {
    match r
    case NoRef => false
    case IdRef(k) => k != ""
    case Embedded(_) => true
  }

  /** `ref || null`. */
  function OrNull<T>(r: Ref<T>): (o: Ref<T>)
    ensures RefTruthy(o) <==> RefTruthy(r)
    ensures o == NoRef || o == r
    ensures RefTruthy(r) ==> o == r
    ensures !RefTruthy(r) ==> o == NoRef
  {
    if RefTruthy(r) then r else NoRef
  }

  /** `(ref || null) || null` is `ref || null`. */
  lemma OrNullIdempotent<T>(r: Ref<T>)
    ensures OrNull(OrNull(r)) == OrNull(r)
  {
  }

  /** `ref?._id` as read into a form: the embedded record's id, otherwise
      `undefined` (a bare id string has no `_id` property). */
  function RefId<T>(r: Ref<T>, key: T -> string): (v: Value)
    ensures v != Missing <==> r.Embedded?
    ensures r.Embedded? ==> v == Str(key(r.doc))
  {
    if r.Embedded? then Str(key(r.doc)) else Missing
  }

  function RuanganKey(r: Ruangan): string { r.id }
  function PegawaiKey(p: Pegawai): string { p.id }
  function TamuKey(t: Tamu): string { t.id }
}
