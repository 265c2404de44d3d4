/** Clinical histories of the current application: one history per client
    and pet, holding an append-only list of diagnosis records, kept in a
    class-level list and saved to and loaded from a histories file. */
module ClinicalHistory {
  import opened Wrappers

  /** A diagnosis record is a dictionary from field names to texts; records
      loaded from the file may carry any keys. */
  type Record = map<string, string>

  const RequiredFieldsError: string := "Diagnóstico y tratamiento son campos obligatorios"

  /** The record `registrar_diagnostico` builds. */
  function DiagnosisRecord(date: string, time: string, diagnosis: string, treatment: string,
                           comments: string): (r: Record)
    ensures r.Keys == {"fecha", "hora", "diagnostico", "tratamiento", "comentarios"}
    ensures r["diagnostico"] == diagnosis && r["tratamiento"] == treatment && r["comentarios"] == comments
    ensures r["fecha"] == date && r["hora"] == time
  {
    map["fecha" := date, "hora" := time, "diagnostico" := diagnosis,
        "tratamiento" := treatment, "comentarios" := comments]
  }

  /** One clinical history. Client id, client name and pet name are fixed at creation. */
  class History {
    const clientId: string
    const clientName: string
    const petName: string
    var records: seq<Record>

    constructor (clientId: string, clientName: string, petName: string)
      ensures this.clientId == clientId && this.clientName == clientName && this.petName == petName
      ensures records == []
    {
      this.clientId, this.clientName, this.petName := clientId, clientName, petName;
      records := [];
    }

    /** `registrar_diagnostico`: an empty diagnosis or treatment is rejected and
        nothing is appended; otherwise exactly one record is appended at the
        end. Date and time are the clock's values at the call. */
    method RegisterDiagnosis(diagnosis: string, treatment: string, date: string, time: string,
                             comments: string := "") returns (outcome: Outcome)
      modifies this
      ensures outcome.Pass? <==> diagnosis != "" && treatment != ""
      ensures outcome.Fail? ==> outcome.message == RequiredFieldsError && records == old(records)
      ensures outcome.Pass? ==> records == old(records) + [DiagnosisRecord(date, time, diagnosis, treatment, comments)]
    {
      if diagnosis == "" || treatment == "" {
        return Fail(RequiredFieldsError);
      }
      records := records + [DiagnosisRecord(date, time, diagnosis, treatment, comments)];
      return Pass;
    }

    /** The loader's inner loop: appends stored records one by one. */
    method AppendRecords(stored: seq<Record>)
      modifies this
      ensures records == old(records) + stored
    {
      var i := 0;
      while i < |stored|
        invariant 0 <= i <= |stored|
        invariant records == old(records) + stored[..i]
      {
        records := records + [stored[i]];
        assert stored[..i + 1] == stored[..i] + [stored[i]];
        i := i + 1;
      }
      assert stored[..i] == stored;
    }
  }

  /** The stored form of one history: id_cliente, nombre_cliente, nombre_mascota, registros. */
  datatype HistoryData = HistoryData(clientId: string, clientName: string, petName: string, records: seq<Record>)

  /** One stored entry per history, in order. */
  function Encode(histories: seq<History>): (r: seq<HistoryData>)
    reads set h | h in histories
    ensures |r| == |histories|
    ensures forall i :: 0 <= i < |histories| ==>
      r[i] == HistoryData(histories[i].clientId, histories[i].clientName, histories[i].petName, histories[i].records)
  {
    if histories == [] then []
    else
      var h := histories[|histories| - 1];
      Encode(histories[..|histories| - 1]) + [HistoryData(h.clientId, h.clientName, h.petName, h.records)]
  }

  /** The first history with that client id. */
  function FindIn(histories: seq<History>, clientId: string): (r: Option<History>)
    ensures r.Some? ==> r.value in histories && r.value.clientId == clientId
    ensures r.None? <==> forall h :: h in histories ==> h.clientId != clientId
  {
    First(histories, (h: History) => h.clientId == clientId)
  }

  /** The class-level list of histories, with the histories file. */
  class HistoryBook {
    var histories: seq<History>
    /** The histories file; `None` while it does not exist. */
    ghost var file: Option<seq<HistoryData>>

    constructor (ghost file: Option<seq<HistoryData>>)
      ensures histories == [] && this.file == file
    {
      histories := [];
      this.file := file;
    }

    /** The history constructor: a new history with no records is appended to the list. */
    method NewHistory(clientId: string, clientName: string, petName: string) returns (h: History)
      modifies this`histories
      ensures fresh(h)
      ensures h.clientId == clientId && h.clientName == clientName && h.petName == petName
      ensures h.records == []
      ensures histories == old(histories) + [h]
    {
      h := new History(clientId, clientName, petName);
      histories := histories + [h];
    }

    /** `buscar_historial`: the first history whose client id equals the argument. */
    function Find(clientId: string): (r: Option<History>)
      reads this
      ensures r == FindIn(histories, clientId)
    {
      FindIn(histories, clientId)
    }

    /** `guardar_historiales`: writes one entry per history. */
    method Save()
      modifies this`file
      ensures file == Some(Encode(histories))
    {
      var data: seq<HistoryData> := [];
      var i := 0;
      while i < |histories|
        invariant 0 <= i <= |histories|
        invariant data == Encode(histories[..i])
      {
        var h := histories[i];
        assert histories[..i + 1][..i] == histories[..i];
        data := data + [HistoryData(h.clientId, h.clientName, h.petName, h.records)];
        i := i + 1;
      }
      assert histories[..i] == histories;
      file := Some(data);
    }

    /** `cargar_historiales`: without a file nothing changes; otherwise every
        stored history is rebuilt through the constructor and appended, after
        the histories already in the list, which are kept. */
    method Load(stored: Option<seq<HistoryData>>)
      modifies this`histories
      ensures stored.None? ==> histories == old(histories)
      ensures stored.Some? ==>
        && |histories| == |old(histories)| + |stored.value|
        && histories[..|old(histories)|] == old(histories)
        && Encode(histories[|old(histories)|..]) == stored.value
      ensures forall k :: |old(histories)| <= k < |histories| ==> fresh(histories[k])
    {
      if stored.None? {
        return;
      }
      var data := stored.value;
      var first := |histories|;
      var i := 0;
      while i < |data|
        invariant 0 <= i <= |data|
        invariant |histories| == first + i
        invariant histories[..first] == old(histories)
        invariant forall k :: first <= k < |histories| ==> fresh(histories[k])
        invariant forall k :: first <= k < |histories| ==>
          HistoryData(histories[k].clientId, histories[k].clientName, histories[k].petName, histories[k].records)
            == data[k - first]
      {
        var d := data[i];
        var h := NewHistory(d.clientId, d.clientName, d.petName);
        h.AppendRecords(d.records);
        i := i + 1;
      }
      assert |Encode(histories[first..])| == |data|;
    }
  }

  /** Saving the histories of a book and loading the file into an empty book
      gives histories with the same ids, names, pets and records, in order. */
  lemma SaveThenLoad(saved: seq<History>, loaded: seq<History>)
    requires Encode(loaded) == Encode(saved)
    ensures |loaded| == |saved|
    ensures forall i :: 0 <= i < |saved| ==>
      && loaded[i].clientId == saved[i].clientId && loaded[i].clientName == saved[i].clientName
      && loaded[i].petName == saved[i].petName && loaded[i].records == saved[i].records
  {
    forall i | 0 <= i < |saved|
      ensures loaded[i].clientId == saved[i].clientId && loaded[i].clientName == saved[i].clientName
      ensures loaded[i].petName == saved[i].petName && loaded[i].records == saved[i].records
    {
      assert Encode(loaded)[i] == Encode(saved)[i];
    }
  }
}
