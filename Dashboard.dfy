/**
 * The complaints dashboard: the raw list loaded from the API, the visible
 * list the filter effect derives from it, and the edit dialog that patches
 * the raw list after a successful save.
 */
module Dashboard {
  import opened Wrappers
  import opened Quejas
  import opened Filters

  const ApiUrl := "https://api-quejas.onrender.com/api/quejas"
  const LoadErrorPrefix := "Error al cargar quejas: "
  const SaveErrorPrefix := "Error al actualizar: "

  /** The edit dialog: closed, or open on the record chosen with "Editar". */
  datatype EditPhase = Idle | Editing(queja: Queja)

  /**
   * A save in flight: what the click on "Guardar Cambios" captured, the
   * chosen record's `id`, the draft and the raw list of that moment. Its
   * continuation patches that list, not the one current when the reply arrives.
   */
  datatype PendingSave = PendingSave(id: Option<string>, form: FormData, snapshot: seq<Queja>)

  /** The update request: the URL carries the record's `id` (`undefined` when it has none). */
  datatype SaveRequest = SaveRequest(url: string, body: FormData)

  /** How `${id}` renders a possibly missing `id`. */
  function IdText(id: Option<string>): (s: string)
    ensures id.Some? ==> s == id.value
    ensures id.None? ==> s == "undefined"
  {
    id.GetOr("undefined")
  }

  /**
   * The optimistic patch is visible at once: every record the filters still
   * show with the saved `id` carries the saved status and description.
   */
  lemma PatchedRecordsVisibleAsSaved(quejas: seq<Queja>, id: Option<string>, fd: FormData, f: FilterState)
    ensures forall q :: q in Visible(PatchById(quejas, id, fd), f) && q.id == id ==>
              q.estatus == fd.estatus && q.description == Some(fd.description)
  {
    var patched := PatchById(quejas, id, fd);
    forall q | q in Visible(patched, f) && q.id == id
      ensures q.estatus == fd.estatus && q.description == Some(fd.description)
    {
      VisibleMembership(patched, f, q);
      var i :| 0 <= i < |patched| && patched[i] == q;
    }
  }

  class AdminDashboard {
    var quejas: seq<Queja>
    var filteredQuejas: seq<Queja>
    var loading: bool
    var error: Option<string>
    var showModal: bool
    var currentQueja: Option<Queja>
    var formData: FormData
    var searchTerm: string
    var filtroTipo: string
    var filtroEstatus: string
    /** Saves sent and not yet answered. */
    var saves: seq<PendingSave>
    /** Whether the load started on mount has ended; that effect runs once (its dependency list is empty). */
    var loaded: bool

    function Filters(): (f: FilterState)
      reads this
      ensures f.searchTerm == searchTerm && f.filtroTipo == filtroTipo && f.filtroEstatus == filtroEstatus
    {
      FilterState(searchTerm, filtroTipo, filtroEstatus)
    }

    /**
     * Between events the filter effect has run, so the visible list is the
     * raw list through the current filters; the dialog is only open on a record.
     */
    ghost predicate Valid()
      reads this
    {
      && filteredQuejas == Visible(quejas, Filters())
      && (showModal ==> currentQueja.Some?)
      && (!loaded ==> loading && saves == [])
      && (saves != [] ==> loading)
      && |saves| <= 1
    }

    function Phase(): (p: EditPhase)
      reads this
      requires Valid()
      ensures p.Idle? <==> !showModal
      ensures p.Editing? ==> Some(p.queja) == currentQueja
    {
      if showModal then Editing(currentQueja.value) else Idle
    }

    constructor ()
      ensures Valid()
      ensures quejas == [] && filteredQuejas == [] && loading && error == None
      ensures !showModal && currentQueja == None && formData == InitialForm
      ensures Filters() == InitialFilters && saves == [] && !loaded
    {
      quejas, filteredQuejas := [], [];
      loading, error := true, None;
      showModal, currentQueja, formData := false, None, InitialForm;
      searchTerm, filtroTipo, filtroEstatus := "", Todos, Todos;
      saves, loaded := [], false;
    }

    /** The filter effect, run whenever the list or a filter input changes. */
    method ApplyFilters()
      modifies this`filteredQuejas
      ensures filteredQuejas == Visible(quejas, Filters())
    {
      filteredQuejas := Visible(quejas, Filters());
    }

    /**
     * The initial load. A response replaces the raw list wholesale; an error
     * is shown and the list is left as it was. Either way loading ends. It
     * happens once, before any record can be edited.
     */
    method FetchResolved(body: Option<seq<Queja>>, message: string)
      requires Valid() && !loaded
      modifies this
      ensures Valid() && loaded
      ensures quejas == (if body.Some? then body.value else old(quejas))
      ensures error == (if body.Some? then old(error) else Some(LoadErrorPrefix + message))
      ensures !loading
      ensures showModal == old(showModal) && currentQueja == old(currentQueja) && formData == old(formData)
      ensures Filters() == old(Filters()) && saves == old(saves)
    {
      if body.Some? {
        quejas := body.value;
        filteredQuejas := body.value;
        ApplyFilters();
      } else {
        error := Some(LoadErrorPrefix + message);
      }
      loading, loaded := false, true;
    }

    method SetSearchTerm(t: string)
      requires Valid()
      modifies this
      ensures Valid() && Filters() == old(Filters()).(searchTerm := t)
      ensures quejas == old(quejas) && loading == old(loading) && error == old(error)
      ensures showModal == old(showModal) && currentQueja == old(currentQueja) && formData == old(formData)
      ensures saves == old(saves) && loaded == old(loaded)
    {
      searchTerm := t;
      ApplyFilters();
    }

    method SetFiltroTipo(t: string)
      requires Valid()
      modifies this
      ensures Valid() && Filters() == old(Filters()).(filtroTipo := t)
      ensures quejas == old(quejas) && loading == old(loading) && error == old(error)
      ensures showModal == old(showModal) && currentQueja == old(currentQueja) && formData == old(formData)
      ensures saves == old(saves) && loaded == old(loaded)
    {
      filtroTipo := t;
      ApplyFilters();
    }

    method SetFiltroEstatus(e: string)
      requires Valid()
      modifies this
      ensures Valid() && Filters() == old(Filters()).(filtroEstatus := e)
      ensures quejas == old(quejas) && loading == old(loading) && error == old(error)
      ensures showModal == old(showModal) && currentQueja == old(currentQueja) && formData == old(formData)
      ensures saves == old(saves) && loaded == old(loaded)
    {
      filtroEstatus := e;
      ApplyFilters();
    }

    /** The options of the category select, in order of first appearance. */
    function TiposQuejas(): (r: seq<string>)
      reads this
      ensures forall q :: q in quejas ==> q.tipo in r
      ensures Seqs.NoDuplicates(r)
    {
      Quejas.TiposQuejas(quejas)
    }

    /**
     * "Editar": the dialog opens on the record, and the draft takes its status
     * and its description (the empty string when it has none). The button is
     * disabled while loading.
     */
    method HandleEdit(q: Queja)
      requires Valid() && !loading
      modifies this
      ensures Valid() && Phase() == Editing(q)
      ensures currentQueja == Some(q) && showModal
      ensures formData == FormData(q.estatus, DescriptionOrEmpty(q.description))
      ensures quejas == old(quejas) && filteredQuejas == old(filteredQuejas)
      ensures loading == old(loading) && error == old(error) && Filters() == old(Filters())
      ensures saves == old(saves) && loaded == old(loaded)
    {
      currentQueja := Some(q);
      formData := FormData(q.estatus, DescriptionOrEmpty(q.description));
      showModal := true;
    }

    /** The status select of the dialog. */
    method SetFormEstatus(e: string)
      requires Valid()
      modifies this`formData
      ensures Valid()
      ensures formData == old(formData).(estatus := e)
    {
      formData := formData.(estatus := e);
    }

    /** The description field of the dialog. */
    method SetFormDescription(d: string)
      requires Valid()
      modifies this`formData
      ensures Valid()
      ensures formData == old(formData).(description := d)
    {
      formData := formData.(description := d);
    }

    /**
     * "Cancelar" and the close button: the dialog closes; the record, the
     * draft and any save in flight stay as they are. These stay enabled while
     * a save is in flight.
     */
    method HideModal()
      requires Valid()
      modifies this`showModal
      ensures Valid() && Phase() == Idle
    {
      showModal := false;
    }

    /** What "Guardar Cambios" sends, when a record has been chosen. */
    function Request(): (r: Option<SaveRequest>)
      reads this
      ensures r.Some? <==> currentQueja.Some?
      ensures r.Some? ==> r.value.url == ApiUrl + "/" + IdText(currentQueja.value.id)
                          && r.value.body == formData
    {
      match currentQueja
      case Some(q) => Some(SaveRequest(ApiUrl + "/" + IdText(q.id), formData))
      case None => None
    }

    /**
     * "Guardar Cambios", up to the request: loading starts and the save joins
     * the ones in flight, capturing the chosen record's `id`, the draft and
     * the raw list. With no record chosen, reading its `id` throws before
     * any request: the error is shown and loading ends at once. The button is
     * disabled while loading.
     */
    method HandleSave(message: string)
      requires Valid() && !loading
      modifies this
      ensures Valid()
      ensures old(currentQueja).Some? ==>
                && loading && error == old(error)
                && saves == old(saves) + [PendingSave(old(currentQueja).value.id, old(formData), old(quejas))]
      ensures old(currentQueja).Some? ==>
                && old(Request()).Some?
                && old(Request()).value.url == ApiUrl + "/" + IdText(saves[|saves| - 1].id)
                && old(Request()).value.body == saves[|saves| - 1].form
      ensures old(currentQueja).None? ==>
                !loading && saves == old(saves) && error == Some(SaveErrorPrefix + message)
      ensures quejas == old(quejas) && filteredQuejas == old(filteredQuejas) && showModal == old(showModal)
      ensures currentQueja == old(currentQueja) && formData == old(formData) && Filters() == old(Filters())
      ensures loaded == old(loaded)
    {
      loading := true;
      if currentQueja.Some? {
        saves := saves + [PendingSave(currentQueja.value.id, formData, quejas)];
      } else {
        error := Some(SaveErrorPrefix + message);
        loading := false;
      }
    }

    /**
     * The reply to the `k`-th save in flight; `putOk` says whether the update
     * request succeeded. On success the raw list becomes the list captured
     * at the click with the records of the captured `id` given the captured
     * draft's status and description, the dialog closes and the visible list
     * is recomputed. On failure the error is shown and the lists and the
     * dialog stay as they are. Loading ends either way.
     */
    method SaveResolved(k: nat, putOk: bool, message: string)
      requires Valid() && k < |saves|
      modifies this
      ensures Valid() && !loading
      ensures saves == old(saves[..k] + saves[k + 1..])
      ensures putOk ==>
                && quejas == PatchById(old(saves[k]).snapshot, old(saves[k]).id, old(saves[k]).form)
                && Phase() == Idle
                && error == old(error)
      ensures putOk ==>
                forall q :: q in filteredQuejas && q.id == old(saves[k]).id ==>
                  q.estatus == old(saves[k]).form.estatus && q.description == Some(old(saves[k]).form.description)
      ensures !putOk ==>
                && quejas == old(quejas) && filteredQuejas == old(filteredQuejas)
                && showModal == old(showModal)
                && error == Some(SaveErrorPrefix + message)
      ensures currentQueja == old(currentQueja) && formData == old(formData) && Filters() == old(Filters())
      ensures loaded == old(loaded) && saves == []
    {
      var p := saves[k];
      saves := saves[..k] + saves[k + 1..];
      if putOk {
        SaveSucceeded(p);
      } else {
        error := Some(SaveErrorPrefix + message);
      }
      loading := false;
    }

    /** The success path of a save: patch, close the dialog, re-run the filter effect. */
    method SaveSucceeded(p: PendingSave)
      modifies this`quejas, this`showModal, this`filteredQuejas
      ensures quejas == PatchById(p.snapshot, p.id, p.form)
      ensures !showModal
      ensures filteredQuejas == Visible(quejas, Filters())
      ensures forall q :: q in filteredQuejas && q.id == p.id ==>
                q.estatus == p.form.estatus && q.description == Some(p.form.description)
    {
      quejas := PatchById(p.snapshot, p.id, p.form);
      showModal := false;
      ApplyFilters();
      PatchedRecordsVisibleAsSaved(p.snapshot, p.id, p.form, Filters());
    }
  }

  /**
   * Between events, a dashboard that is not loading has no save in flight:
   * "Editar" and "Guardar Cambios" are usable only when nothing is pending.
   */
  lemma NoSaveInFlightWhenIdle(d: AdminDashboard)
    requires d.Valid() && !d.loading
    ensures d.saves == [] && d.loaded
  {
  }

  /**
   * Open the dialog on a record, change its status, save, and get a
   * successful reply: the record's status is the chosen one, the list keeps
   * its length, and the dialog is closed.
   */
  method EditScenario(d: AdminDashboard, q: Queja, estatus: string)
    requires d.Valid() && !d.loading
    modifies d
    ensures d.Valid() && d.Phase() == Idle && !d.loading && d.saves == []
    ensures |d.quejas| == |old(d.quejas)|
    ensures forall i :: 0 <= i < |d.quejas| && old(d.quejas)[i].id == q.id ==>
              d.quejas[i].estatus == estatus
              && d.quejas[i].description == Some(DescriptionOrEmpty(q.description))
    ensures forall i :: 0 <= i < |d.quejas| && old(d.quejas)[i].id != q.id ==> d.quejas[i] == old(d.quejas)[i]
  {
    d.HandleEdit(q);
    d.SetFormEstatus(estatus);
    d.HandleSave("");
    assert d.saves[|d.saves| - 1] == PendingSave(q.id, FormData(estatus, DescriptionOrEmpty(q.description)), old(d.quejas));
    d.SaveResolved(|d.saves| - 1, true, "");
  }
}
