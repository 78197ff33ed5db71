/**
 * The complaint ("queja") record as the console receives it from the
 * complaints API, the edit-form draft, and the list transforms applied
 * after a successful save.
 */
module Quejas {
  import opened Wrappers
  import Seqs

  /**
   * One complaint. `folio`, `tipo` and `estatus` are always strings (the search
   * lower-cases `folio` and `tipo`). `id`, `description` and `texto` may be
   * missing from a record; `fecha` is only displayed.
   */
  datatype Queja = Queja(
    id: Option<string>,
    folio: string,
    tipo: string,
    estatus: string,
    fecha: string,
    description: Option<string>,
    texto: Option<string>)

  /** The dashboard's edit-form draft (`formData`). */
  datatype FormData = FormData(estatus: string, description: string)

  /** `formData`'s initial value. */
  const InitialForm := FormData("Recibida", "")

  /** `q.description || ''`: a missing or empty description becomes the empty string. */
  function DescriptionOrEmpty(d: Option<string>): (s: string)
    ensures d.Some? ==> s == d.value
    ensures d.None? ==> s == ""
  {
    d.GetOr("")
  }

  /** `{ ...q, ...formData }`: the draft's two fields overwrite the record's. */
  function ApplyForm(q: Queja, fd: FormData): (r: Queja)
    ensures r.estatus == fd.estatus && r.description == Some(fd.description)
    ensures r.id == q.id && r.folio == q.folio && r.tipo == q.tipo && r.fecha == q.fecha && r.texto == q.texto
  {
    q.(estatus := fd.estatus, description := Some(fd.description))
  }

  /**
   * `quejas.map(q => q.id === currentQueja.id ? { ...q, ...formData } : q)`.
   * `id` values are compared as they are, so when the selected record has no
   * `id`, every record without one matches (`undefined === undefined`).
   */
  function PatchById(quejas: seq<Queja>, id: Option<string>, fd: FormData): (r: seq<Queja>)
    ensures |r| == |quejas|
    ensures forall i :: 0 <= i < |quejas| && quejas[i].id == id ==>
              && r[i].estatus == fd.estatus
              && r[i].description == Some(fd.description)
              && r[i].id == quejas[i].id && r[i].folio == quejas[i].folio
              && r[i].tipo == quejas[i].tipo && r[i].fecha == quejas[i].fecha
              && r[i].texto == quejas[i].texto
    ensures forall i :: 0 <= i < |quejas| && quejas[i].id != id ==> r[i] == quejas[i]
  {
    Seqs.Map((q: Queja) => if q.id == id then ApplyForm(q, fd) else q, quejas)
  }

  /**
   * `prev.map(q => q.folio === folio ? { ...q, estatus } : q)`: only the
   * status of the records with the selected folio changes.
   */
  function PatchByFolio(quejas: seq<Queja>, folio: string, estatus: string): (r: seq<Queja>)
    ensures |r| == |quejas|
    ensures forall i :: 0 <= i < |quejas| && quejas[i].folio == folio ==>
              r[i] == quejas[i].(estatus := estatus)
    ensures forall i :: 0 <= i < |quejas| && quejas[i].folio != folio ==> r[i] == quejas[i]
  {
    Seqs.Map((q: Queja) => if q.folio == folio then q.(estatus := estatus) else q, quejas)
  }

  /** Patching twice with the same draft is the same as patching once. */
  lemma PatchByIdIdempotent(quejas: seq<Queja>, id: Option<string>, fd: FormData)
    ensures PatchById(PatchById(quejas, id, fd), id, fd) == PatchById(quejas, id, fd)
  {
  }

  /** A record whose `id` matches nobody's leaves the list as it was. */
  lemma PatchByIdNoMatch(quejas: seq<Queja>, id: Option<string>, fd: FormData)
    requires forall i :: 0 <= i < |quejas| ==> quejas[i].id != id
    ensures PatchById(quejas, id, fd) == quejas
  {
  }

  /** Patching by folio with the status each matching record already has changes nothing. */
  lemma PatchByFolioSameStatus(quejas: seq<Queja>, folio: string, estatus: string)
    requires forall i :: 0 <= i < |quejas| && quejas[i].folio == folio ==> quejas[i].estatus == estatus
    ensures PatchByFolio(quejas, folio, estatus) == quejas
  {
  }

  /** `quejas.map(q => q.tipo)`. */
  function Tipos(quejas: seq<Queja>): (r: seq<string>)
    ensures |r| == |quejas|
    ensures forall i :: 0 <= i < |quejas| ==> r[i] == quejas[i].tipo
  {
    Seqs.Map((q: Queja) => q.tipo, quejas)
  }

  /** `[...new Set(quejas.map(q => q.tipo))]`: the category options of the type filter. */
  function TiposQuejas(quejas: seq<Queja>): (r: seq<string>)
    ensures forall i :: 0 <= i < |quejas| ==> quejas[i].tipo in r
    ensures forall i :: 0 <= i < |r| ==> exists j :: 0 <= j < |quejas| && quejas[j].tipo == r[i]
    ensures Seqs.NoDuplicates(r)
  {
    var ts := Tipos(quejas);
    var r := Seqs.Distinct(ts);
    assert forall i :: 0 <= i < |r| ==> exists j :: 0 <= j < |quejas| && quejas[j].tipo == r[i] by {
      forall i | 0 <= i < |r|
        ensures exists j :: 0 <= j < |quejas| && quejas[j].tipo == r[i]
      {
        var j :| 0 <= j < |ts| && ts[j] == r[i];
      }
    }
    r
  }

  /** The category options follow the order in which each `tipo` first appears. */
  lemma TiposQuejasOrder(quejas: seq<Queja>)
    ensures forall i, j :: 0 <= i < j < |TiposQuejas(quejas)| ==>
              Seqs.FirstIndex(Tipos(quejas), TiposQuejas(quejas)[i])
                < Seqs.FirstIndex(Tipos(quejas), TiposQuejas(quejas)[j])
  {
    Seqs.DistinctFirstOccurrenceOrder(Tipos(quejas));
  }
}
