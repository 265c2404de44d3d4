/** The older stand-alone clinical history at the repository root: the same
    append-only records (with the time stored under "Hora"), found by client
    id with a search loop, and a find-or-create rule for registering a
    diagnosis from the entries a user types. */
module LegacyClinicalHistory {
  import opened Wrappers
  import opened Strings
  import ClinicalHistory

  type Record = ClinicalHistory.Record

  /** The record the older `registrar_diagnostico` builds; its time key is "Hora". */
  function LegacyRecord(date: string, time: string, diagnosis: string, treatment: string,
                        comments: string): (r: Record)
    ensures r.Keys == {"fecha", "Hora", "diagnostico", "tratamiento", "comentarios"}
    ensures "hora" !in r
    ensures r["diagnostico"] == diagnosis && r["tratamiento"] == treatment && r["comentarios"] == comments
    ensures r["fecha"] == date && r["Hora"] == time
  {
    map["fecha" := date, "Hora" := time, "diagnostico" := diagnosis,
        "tratamiento" := treatment, "comentarios" := comments]
  }

  class History {
    const clientId: string
    const clientName: string
    const petName: string
    var records: seq<Record>

    constructor (clientId: string, clientName: string, petName: string)
      ensures this.clientId == clientId && this.clientName == clientName && this.petName == petName
      ensures records == []
    {
      this.clientId, this.clientName, this.petName := clientId, clientName, petName;
      records := [];
    }

    /** `registrar_diagnostico`: an empty diagnosis or treatment is rejected and
        nothing is appended; otherwise one record is appended at the end. */
    method RegisterDiagnosis(diagnosis: string, treatment: string, date: string, time: string,
                             comments: string := "") returns (outcome: Outcome)
      modifies this
      ensures outcome.Pass? <==> diagnosis != "" && treatment != ""
      ensures outcome.Fail? ==> outcome.message == ClinicalHistory.RequiredFieldsError && records == old(records)
      ensures outcome.Pass? ==> records == old(records) + [LegacyRecord(date, time, diagnosis, treatment, comments)]
    {
      if diagnosis == "" || treatment == "" {
        return Fail(ClinicalHistory.RequiredFieldsError);
      }
      records := records + [LegacyRecord(date, time, diagnosis, treatment, comments)];
      return Pass;
    }
  }

  /** Whether a history belongs to the client with that id. */
  predicate HasId(h: History, clientId: string) {
    h.clientId == clientId
  }

  /** The first history with that client id. */
  function FindIn(histories: seq<History>, clientId: string): (r: Option<History>)
    ensures r.Some? ==> r.value in histories && r.value.clientId == clientId
    ensures r.None? <==> forall h :: h in histories ==> h.clientId != clientId
  {
    First(histories, (h: History) => HasId(h, clientId))
  }

  /** The messages of the entries `crear_o_actualizar_historial` asks for. */
  const IdError: string := "El ID debe ser un número."
  const PetError: string := "El nombre de la mascota no puede estar vacío."
  const DiagnosisError: string := "El diagnóstico no puede estar vacío."
  const TreatmentError: string := "El tratamiento no puede estar vacío."
  const ClientNameError: string := "El nombre del cliente no puede estar vacío."

  /** The message for the first rejected entry among the four always asked
      for, in the order they are asked; `None` when all four are accepted. */
  function EntryError(clientId: string, petName: string, diagnosis: string, treatment: string): (e: Option<string>)
    ensures e.None? <==> IsDigitString(Strip(clientId)) && Strip(petName) != "" && Strip(diagnosis) != "" && Strip(treatment) != ""
    ensures !IsDigitString(Strip(clientId)) ==> e == Some(IdError)
  {
    if !IsDigitString(Strip(clientId)) then Some(IdError)
    else if Strip(petName) == "" then Some(PetError)
    else if Strip(diagnosis) == "" then Some(DiagnosisError)
    else if Strip(treatment) == "" then Some(TreatmentError)
    else None
  }

  /** The class-level list of histories. */
  class HistoryBook {
    var histories: seq<History>

    constructor ()
      ensures histories == []
    {
      histories := [];
    }

    /** The history constructor: appends a new history with no records. */
    method NewHistory(clientId: string, clientName: string, petName: string) returns (h: History)
      modifies this
      ensures fresh(h)
      ensures h.clientId == clientId && h.clientName == clientName && h.petName == petName
      ensures h.records == []
      ensures histories == old(histories) + [h]
    {
      h := new History(clientId, clientName, petName);
      histories := histories + [h];
    }

    /** `buscar_historial`: the search loop stops at the first history with
        that client id. */
    method Find(clientId: string) returns (r: Option<History>)
      ensures r == FindIn(histories, clientId)
    {
      var p := (h: History) => HasId(h, clientId);
      var i := 0;
      while i < |histories|
        invariant 0 <= i <= |histories|
        invariant First(histories, p) == First(histories[i..], p)
      {
        FirstCons(histories[i..], p);
        assert histories[i..][1..] == histories[i + 1..];
        if histories[i].clientId == clientId {
          return Some(histories[i]);
        }
        i := i + 1;
      }
      return None;
    }

    /** The find-or-create step of `crear_o_actualizar_historial`, on entries
        already stripped and accepted: a history with that id gets the new
        record; otherwise an empty client name is rejected with nothing
        changed, and any other creates exactly one new history holding just
        the new record. No other history changes. */
    method FileDiagnosis(id: string, name: string, pet: string, diagnosis: string, treatment: string,
                         comments: string, date: string, time: string) returns (r: Result<History>)
      requires diagnosis != "" && treatment != ""
      modifies this, histories
      ensures r.Err? <==> old(FindIn(histories, id)).None? && name == ""
      ensures r.Err? ==> r.message == ClientNameError && histories == old(histories)
      ensures r.Err? ==> forall h :: h in histories ==> h.records == old(h.records)
      ensures r.Ok? ==> r.value.clientId == id
      ensures r.Ok? ==> forall h :: h in old(histories) && h != r.value ==> h.records == old(h.records)
      ensures old(FindIn(histories, id)).Some? ==>
        && r == Ok(old(FindIn(histories, id)).value) && histories == old(histories)
        && r.value.records == old(r.value.records) + [LegacyRecord(date, time, diagnosis, treatment, comments)]
      ensures r.Ok? && old(FindIn(histories, id)).None? ==>
        && fresh(r.value) && histories == old(histories) + [r.value]
        && r.value.clientName == name && r.value.petName == pet
        && r.value.records == [LegacyRecord(date, time, diagnosis, treatment, comments)]
    {
      var found := Find(id);
      var h: History;
      if found.Some? {
        h := found.value;
      } else {
        if name == "" {
          return Err(ClientNameError);
        }
        h := NewHistory(id, name, pet);
      }
      assert forall x :: x in old(histories) ==> x.records == old(x.records);
      var outcome := h.RegisterDiagnosis(diagnosis, treatment, date, time, comments);
      return Ok(h);
    }

    /** `crear_o_actualizar_historial`, one entry per prompt. The client id is
        stripped and must be all digits; pet, diagnosis and treatment are
        stripped and must not be empty; comments and the client name are
        stripped. A rejected entry changes nothing; otherwise the record is
        filed as `FileDiagnosis` says. */
    method CreateOrUpdate(clientId: string, petName: string, diagnosis: string, treatment: string,
                          comments: string, clientName: string, date: string, time: string)
      returns (r: Result<History>)
      modifies this, histories
      ensures EntryError(clientId, petName, diagnosis, treatment).Some? ==>
        && r == Err(EntryError(clientId, petName, diagnosis, treatment).value)
        && histories == old(histories) && forall h :: h in histories ==> h.records == old(h.records)
      ensures var id, name := Strip(clientId), Strip(clientName);
        var record := LegacyRecord(date, time, Strip(diagnosis), Strip(treatment), Strip(comments));
        EntryError(clientId, petName, diagnosis, treatment).None? ==>
        && (r.Err? <==> old(FindIn(histories, id)).None? && name == "")
        && (r.Err? ==> r.message == ClientNameError && histories == old(histories))
        && (r.Err? ==> forall h :: h in histories ==> h.records == old(h.records))
        && (r.Ok? ==> r.value.clientId == id)
        && (r.Ok? ==> forall h :: h in old(histories) && h != r.value ==> h.records == old(h.records))
        && (old(FindIn(histories, id)).Some? ==>
             && r == Ok(old(FindIn(histories, id)).value) && histories == old(histories)
             && r.value.records == old(r.value.records) + [record])
        && (r.Ok? && old(FindIn(histories, id)).None? ==>
             && fresh(r.value) && histories == old(histories) + [r.value]
             && r.value.clientName == name && r.value.petName == Strip(petName)
             && r.value.records == [record])
    {
      var error := EntryError(clientId, petName, diagnosis, treatment);
      if error.Some? {
        return Err(error.value);
      }
      var id, name, pet := Strip(clientId), Strip(clientName), Strip(petName);
      var diag, treat, notes := Strip(diagnosis), Strip(treatment), Strip(comments);
      r := FileDiagnosis(id, name, pet, diag, treat, notes, date, time);
    }
  }
}
