/** The veterinarian's consultation of a client's clinical history: the list
    of known clients, searching them, gathering one client's histories and
    purchases, statistics, keyword-driven recommendations and the access
    check for the veterinarian's view. Clients are known by name, from the
    clinical histories and from the sales. */
module ClinicalLookup {
  import opened Wrappers
  import opened Strings
  import opened Products
  import opened Sales
  import opened ClinicalHistory
  import Roles

  // ------------------------------------------------------------ client names

  /** The client name of every history, in list order. */
  function HistoryClients(hs: seq<History>): (r: seq<string>)
    ensures |r| == |hs|
    ensures forall i :: 0 <= i < |hs| ==> r[i] == hs[i].clientName
  {
    if hs == [] then [] else HistoryClients(hs[..|hs| - 1]) + [hs[|hs| - 1].clientName]
  }

  /** The client of every sale, in list order. */
  function SaleClients(sales: seq<Sale>): (r: seq<string>)
    ensures |r| == |sales|
    ensures forall i :: 0 <= i < |sales| ==> r[i] == sales[i].client
  {
    if sales == [] then [] else SaleClients(sales[..|sales| - 1]) + [sales[|sales| - 1].client]
  }

  /** Every client name the system knows: those of the histories, then those of the sales. */
  function ClientNames(hs: seq<History>, sales: seq<Sale>): (r: seq<string>)
    ensures forall n :: n in r <==>
      (exists h :: h in hs && h.clientName == n) || (exists s :: s in sales && s.client == n)
  {
    var a, b := HistoryClients(hs), SaleClients(sales);
    forall n | (exists h :: h in hs && h.clientName == n) ensures n in a {
      var h :| h in hs && h.clientName == n;
      var i :| 0 <= i < |hs| && hs[i] == h;
      assert a[i] == n;
    }
    forall n | (exists s :: s in sales && s.client == n) ensures n in b {
      var s :| s in sales && s.client == n;
      var i :| 0 <= i < |sales| && sales[i] == s;
      assert b[i] == n;
    }
    a + b
  }

  /** `termino.lower() in nombre.lower()`. */
  predicate MatchesTerm(name: string, term: string) {
    Contains(ToLower(name), ToLower(term))
  }

  /** The names that contain the term, ignoring case, in their order. */
  function MatchingClients(names: seq<string>, term: string): (r: seq<string>)
    ensures forall n :: n in r <==> n in names && MatchesTerm(n, term)
  {
    Filter(names, (n: string) => MatchesTerm(n, term))
  }

  /** The histories whose client equals the name, ignoring case, in list order. */
  function HistoriesOf(hs: seq<History>, name: string): (r: seq<History>)
    ensures forall h :: h in r ==> h in hs && ToLower(h.clientName) == ToLower(name)
    ensures forall h :: h in hs && ToLower(h.clientName) == ToLower(name) ==> h in r
  {
    Filter(hs, (h: History) => ToLower(h.clientName) == ToLower(name))
  }

  /** The sales whose client equals the name, ignoring case, in list order. */
  function PurchasesOf(sales: seq<Sale>, name: string): (r: seq<Sale>)
    ensures forall s :: s in r ==> s in sales && ToLower(s.client) == ToLower(name)
    ensures forall s :: s in sales && ToLower(s.client) == ToLower(name) ==> s in r
  {
    Filter(sales, (s: Sale) => ToLower(s.client) == ToLower(name))
  }

  /** Every text contains itself. */
  lemma ContainsSelf(s: string)
    ensures Contains(s, s)
  {
    assert s[0..|s|] == s;
    assert OccursAt(s, s, 0);
  }

  /** A client whose full history is non-empty is found by searching for its
      name: a name equal to the term ignoring case contains the term. */
  lemma FullHistoryClientIsFound(hs: seq<History>, sales: seq<Sale>, name: string)
    ensures forall h :: h in HistoriesOf(hs, name) ==>
      h.clientName in MatchingClients(ClientNames(hs, sales), name)
    ensures forall s :: s in PurchasesOf(sales, name) ==>
      s.client in MatchingClients(ClientNames(hs, sales), name)
  {
    ContainsSelf(ToLower(name));
  }

  /** The sorted, duplicate-free list `sorted(set(xs))` grows by one name at a time. */
  lemma SortedSetSnoc(xs: seq<string>, x: string)
    ensures SortedSet(xs + [x]) == Insert(SortedSet(xs), x)
  {
    assert (xs + [x])[..|xs|] == xs;
  }

  /** Filtering the names grows by at most the one name appended. */
  lemma MatchingSnoc(names: seq<string>, x: string, term: string)
    ensures MatchingClients(names + [x], term) ==
      MatchingClients(names, term) + (if MatchesTerm(x, term) then [x] else [])
  {
    assert (names + [x])[..|names|] == names;
  }

  // ------------------------------------------------------------ statistics

  /** Every record of every history, in order. */
  function AllRecords(hs: seq<History>): seq<Record>
    reads set h | h in hs
  {
    if hs == [] then [] else AllRecords(hs[..|hs| - 1]) + hs[|hs| - 1].records
  }

  lemma {:induction false} AllRecordsAppend(a: seq<History>, b: seq<History>)
    ensures AllRecords(a + b) == AllRecords(a) + AllRecords(b)
  {
    if b == [] {
      assert a + b == a;
    } else {
      assert (a + b)[..|a + b| - 1] == a + b[..|b| - 1];
      AllRecordsAppend(a, b[..|b| - 1]);
    }
  }

  /** `sum(len(h.get_registros()) for h in historiales)`. */
  function RecordCount(hs: seq<History>): (n: int)
    reads set h | h in hs
  {
    if hs == [] then 0 else RecordCount(hs[..|hs| - 1]) + |hs[|hs| - 1].records|
  }

  /** The number of consultations counts every record of every history once. */
  lemma {:induction false} RecordCountIsAllRecords(hs: seq<History>)
    ensures RecordCount(hs) == |AllRecords(hs)|
  {
    if hs != [] {
      RecordCountIsAllRecords(hs[..|hs| - 1]);
    }
  }

  /** `set(h.get_nombre_mascota() for h in historiales)`. */
  function PetNames(hs: seq<History>): (pets: set<string>)
    ensures forall n :: n in pets <==> exists h :: h in hs && h.petName == n
    ensures |pets| <= |hs|
    ensures hs != [] ==> |pets| >= 1
  {
    if hs == [] then {}
    else
      var rest := PetNames(hs[..|hs| - 1]);
      assert forall h :: h in hs[..|hs| - 1] ==> h in hs;
      assert forall h :: h in hs ==> h in hs[..|hs| - 1] || h == hs[|hs| - 1];
      rest + {hs[|hs| - 1].petName}
  }

  /** `sum(venta.total() for venta in compras) if compras else 0`. */
  function Spent(sales: seq<Sale>): (r: int)
    reads ProductsOf(AllLines(sales))
    ensures sales == [] ==> r == 0
  {
    if sales == [] then 0
    else
      var last := sales[|sales| - 1];
      ProductsOfAppend(AllLines(sales[..|sales| - 1]), last.lines);
      Spent(sales[..|sales| - 1]) + Total(last.lines)
  }

  /** What a client spent is the total of every line of every purchase. */
  lemma {:induction false} SpentIsTotalOfAllLines(sales: seq<Sale>)
    ensures Spent(sales) == Total(AllLines(sales))
  {
    if sales != [] {
      SpentIsTotalOfAllLines(sales[..|sales| - 1]);
      TotalAppend(AllLines(sales[..|sales| - 1]), sales[|sales| - 1].lines);
    }
  }

  datatype ClientStats = ClientStats(consultations: int, purchases: int, pets: int, spent: int)

  /** `generar_estadisticas_cliente`. */
  function Stats(hs: seq<History>, sales: seq<Sale>): (r: ClientStats)
    reads (set h | h in hs), ProductsOf(AllLines(sales))
    ensures r.purchases == |sales|
    ensures 0 <= r.pets <= |hs| && (r.pets == 0 <==> hs == [])
    ensures r.pets == |PetNames(hs)|
    ensures r.consultations == |AllRecords(hs)|
    ensures sales == [] ==> r.spent == 0
    ensures r.spent == Total(AllLines(sales))
  {
    RecordCountIsAllRecords(hs);
    SpentIsTotalOfAllLines(sales);
    ClientStats(RecordCount(hs), |sales|, |PetNames(hs)|, Spent(sales))
  }

  /** With non-negative prices and amounts nothing spent is negative. */
  lemma StatsSpentNonNegative(hs: seq<History>, sales: seq<Sale>)
    requires forall l :: l in AllLines(sales) ==> l.amount >= 0 && l.product.price >= 0
    ensures Stats(hs, sales).spent >= 0
  {
    TotalNonNegative(AllLines(sales));
  }

  // ------------------------------------------------------------ recommendations

  const Deworming: string := "Mantener esquema regular de desparasitación cada 3-6 meses"
  const Vaccination: string := "Verificar calendario de vacunación y mantener al día"
  const DentalCare: string := "Implementar rutina de higiene dental regular"
  const Supplements: string := "Continuar con suplementación vitamínica según indicaciones"
  const Feeding: string := "Mantener alimentación balanceada y de calidad"
  const YearCheckup: string := "Programar chequeo general - más de un año desde última consulta"
  const PreventiveCheckup: string := "Considerar chequeo preventivo"
  const RegularVisits: string := "Mantener visitas regulares para chequeos preventivos"

  /** The general recommendations given when no rule fires. */
  const Defaults: seq<string> :=
    [RegularVisits, "Considerar vacunación según calendario veterinario", "Implementar rutina de desparasitación preventiva"]

  /** What the rules look at: which keywords the joined texts contain, and
      the number of days since the latest consultation. */
  datatype Signals = Signals(deworming: bool, vaccination: bool, dental: bool,
                             supplements: bool, feeding: bool, elapsed: Option<int>)

  /** The keyword tests on the joined lowered diagnoses and product names. */
  function SignalsOf(diagnosisText: string, productText: string, elapsed: Option<int>): Signals {
    Signals(Contains(diagnosisText, "desparasit"),
            Contains(diagnosisText, "vacun") || Contains(diagnosisText, "inmuniz"),
            Contains(diagnosisText, "dental") || Contains(diagnosisText, "diente"),
            Contains(productText, "vitamina") || Contains(productText, "suplemento"),
            Contains(productText, "alimento") || Contains(productText, "comida"),
            elapsed)
  }

  /** The recommendations the rules produce, in the order the rules run. */
  function RuleRecommendations(s: Signals): (r: seq<string>)
    ensures |r| <= 6
  {
    (if s.deworming then [Deworming] else [])
    + (if s.vaccination then [Vaccination] else [])
    + (if s.dental then [DentalCare] else [])
    + (if s.supplements then [Supplements] else [])
    + (if s.feeding then [Feeding] else [])
    + (if s.elapsed.Some? && s.elapsed.value > 365 then [YearCheckup]
       else if s.elapsed.Some? && s.elapsed.value > 180 then [PreventiveCheckup] else [])
  }

  /** The general recommendations stand in for an empty list. */
  function WithDefaults(rs: seq<string>): (r: seq<string>)
    ensures r != []
    ensures rs != [] ==> r == rs
    ensures rs == [] ==> r == Defaults
  {
    if rs == [] then Defaults else rs
  }

  /** The recommendations for lowered diagnoses and lowered product names:
      the rules over the space-joined texts, or the defaults when none fires. */
  function Recommend(diagnoses: seq<string>, products: seq<string>, elapsed: Option<int>): (r: seq<string>)
    ensures r != []
  {
    WithDefaults(RuleRecommendations(SignalsOf(Join(diagnoses, ' '), Join(products, ' '), elapsed)))
  }

  /** Some piece of the list contains the keyword. */
  predicate AnyContains(pieces: seq<string>, keyword: string) {
    exists i :: 0 <= i < |pieces| && Contains(pieces[i], keyword)
  }

  /** The messages differ from one another: most by length, the two pairs of
      equal length by a letter near their end. */
  lemma MessagesDistinct()
    ensures |Deworming| == 58 && |Vaccination| == 52 && |DentalCare| == 44 && |Supplements| == 58
    ensures |Feeding| == 45 && |YearCheckup| == 63 && |PreventiveCheckup| == 29
    ensures |Defaults[0]| == 52 && |Defaults[1]| == 50 && |Defaults[2]| == 48
    ensures Deworming[55] == 's' && Supplements[55] == 'n' && Vaccination[51] == 'a' && Defaults[0][51] == 's'
    ensures var ms := [Deworming, Vaccination, DentalCare, Supplements, Feeding, YearCheckup, PreventiveCheckup,
                       Defaults[0], Defaults[1], Defaults[2]];
      forall i, j :: 0 <= i < j < |ms| ==> ms[i] != ms[j]
  {
  }

  /** A message is among the rule recommendations exactly when its rule fired. */
  lemma RuleMembers(s: Signals)
    ensures forall m :: m in RuleRecommendations(s) <==>
      || (m == Deworming && s.deworming) || (m == Vaccination && s.vaccination)
      || (m == DentalCare && s.dental) || (m == Supplements && s.supplements)
      || (m == Feeding && s.feeding)
      || (m == YearCheckup && s.elapsed.Some? && s.elapsed.value > 365)
      || (m == PreventiveCheckup && s.elapsed.Some? && 180 < s.elapsed.value <= 365)
  {
  }

  /** Each rule's message is in the answer exactly when that rule fires. */
  lemma SignalMembership(s: Signals)
    ensures var r := WithDefaults(RuleRecommendations(s));
      && (Deworming in r <==> s.deworming)
      && (Vaccination in r <==> s.vaccination)
      && (DentalCare in r <==> s.dental)
      && (Supplements in r <==> s.supplements)
      && (Feeding in r <==> s.feeding)
      && (YearCheckup in r <==> s.elapsed.Some? && s.elapsed.value > 365)
      && (PreventiveCheckup in r <==> s.elapsed.Some? && 180 < s.elapsed.value <= 365)
  {
    MessagesDistinct();
    RuleMembers(s);
    var rs := RuleRecommendations(s);
    if rs == [] {
      assert !s.deworming && !s.vaccination && !s.dental && !s.supplements && !s.feeding;
      assert forall m :: m in Defaults ==> |m| in {52, 50, 48} && (|m| == 52 ==> m[51] == 's');
    }
  }

  /** Which messages the recommendation holds, in terms of the joined texts. */
  lemma RecommendOnTexts(diagnoses: seq<string>, products: seq<string>, elapsed: Option<int>)
    ensures var d, p, r := Join(diagnoses, ' '), Join(products, ' '), Recommend(diagnoses, products, elapsed);
      && (Deworming in r <==> Contains(d, "desparasit"))
      && (Vaccination in r <==> Contains(d, "vacun") || Contains(d, "inmuniz"))
      && (DentalCare in r <==> Contains(d, "dental") || Contains(d, "diente"))
      && (Supplements in r <==> Contains(p, "vitamina") || Contains(p, "suplemento"))
      && (Feeding in r <==> Contains(p, "alimento") || Contains(p, "comida"))
      && (YearCheckup in r <==> elapsed.Some? && elapsed.value > 365)
      && (PreventiveCheckup in r <==> elapsed.Some? && 180 < elapsed.value <= 365)
  {
    SignalMembership(SignalsOf(Join(diagnoses, ' '), Join(products, ' '), elapsed));
  }

  /** The deworming rule fires on "desparasit" in any single diagnosis. */
  lemma DewormingRule(diagnoses: seq<string>, products: seq<string>, elapsed: Option<int>)
    ensures Deworming in Recommend(diagnoses, products, elapsed) <==> AnyContains(diagnoses, "desparasit")
  {
    RecommendOnTexts(diagnoses, products, elapsed);
    JoinContains(diagnoses, ' ', "desparasit");
  }

  /** The vaccination rule fires on "vacun" or "inmuniz" in any single diagnosis. */
  lemma VaccinationRule(diagnoses: seq<string>, products: seq<string>, elapsed: Option<int>)
    ensures Vaccination in Recommend(diagnoses, products, elapsed) <==>
      AnyContains(diagnoses, "vacun") || AnyContains(diagnoses, "inmuniz")
  {
    RecommendOnTexts(diagnoses, products, elapsed);
    JoinContains(diagnoses, ' ', "vacun");
    JoinContains(diagnoses, ' ', "inmuniz");
  }

  /** The dental rule fires on "dental" or "diente" in any single diagnosis. */
  lemma DentalRule(diagnoses: seq<string>, products: seq<string>, elapsed: Option<int>)
    ensures DentalCare in Recommend(diagnoses, products, elapsed) <==>
      AnyContains(diagnoses, "dental") || AnyContains(diagnoses, "diente")
  {
    RecommendOnTexts(diagnoses, products, elapsed);
    JoinContains(diagnoses, ' ', "dental");
    JoinContains(diagnoses, ' ', "diente");
  }

  /** The supplement rule fires on "vitamina" or "suplemento" in any single product name. */
  lemma SupplementRule(diagnoses: seq<string>, products: seq<string>, elapsed: Option<int>)
    ensures Supplements in Recommend(diagnoses, products, elapsed) <==>
      AnyContains(products, "vitamina") || AnyContains(products, "suplemento")
  {
    RecommendOnTexts(diagnoses, products, elapsed);
    JoinContains(products, ' ', "vitamina");
    JoinContains(products, ' ', "suplemento");
  }

  /** The feeding rule fires on "alimento" or "comida" in any single product name. */
  lemma FeedingRule(diagnoses: seq<string>, products: seq<string>, elapsed: Option<int>)
    ensures Feeding in Recommend(diagnoses, products, elapsed) <==>
      AnyContains(products, "alimento") || AnyContains(products, "comida")
  {
    RecommendOnTexts(diagnoses, products, elapsed);
    JoinContains(products, ' ', "alimento");
    JoinContains(products, ' ', "comida");
  }

  /** Exactly when no rule fires the answer is the three general recommendations. */
  lemma DefaultsWhenNoRuleFires(diagnoses: seq<string>, products: seq<string>, elapsed: Option<int>)
    ensures Recommend(diagnoses, products, elapsed) == Defaults <==>
      && !AnyContains(diagnoses, "desparasit") && !AnyContains(diagnoses, "vacun")
      && !AnyContains(diagnoses, "inmuniz") && !AnyContains(diagnoses, "dental")
      && !AnyContains(diagnoses, "diente") && !AnyContains(products, "vitamina")
      && !AnyContains(products, "suplemento") && !AnyContains(products, "alimento")
      && !AnyContains(products, "comida") && (elapsed.None? || elapsed.value <= 180)
  {
    DewormingRule(diagnoses, products, elapsed);
    VaccinationRule(diagnoses, products, elapsed);
    DentalRule(diagnoses, products, elapsed);
    SupplementRule(diagnoses, products, elapsed);
    FeedingRule(diagnoses, products, elapsed);
    MessagesDistinct();
    var rs := RuleRecommendations(SignalsOf(Join(diagnoses, ' '), Join(products, ' '), elapsed));
    if rs != [] {
      assert rs[0] in rs;
      assert rs[0] != Defaults[0];
    }
  }

  /** `registro['diagnostico'].lower()` for every record; `None` when some
      record has no diagnosis, which raises a KeyError. */
  function Diagnoses(records: seq<Record>): (r: Option<seq<string>>)
    ensures r.None? <==> exists i :: 0 <= i < |records| && "diagnostico" !in records[i]
    ensures r.Some? ==> |r.value| == |records|
    ensures r.Some? ==> forall i :: 0 <= i < |records| ==> r.value[i] == ToLower(records[i]["diagnostico"])
  {
    if records == [] then Some([])
    else
      var last := records[|records| - 1];
      match Diagnoses(records[..|records| - 1])
      case None => None
      case Some(ds) => if "diagnostico" in last then Some(ds + [ToLower(last["diagnostico"])]) else None
  }

  /** `producto['nombre'].lower()` for every line, in order. */
  function LineNames(lines: seq<SaleLine>): (r: seq<string>)
    ensures |r| == |lines|
    ensures forall i :: 0 <= i < |lines| ==> r[i] == ToLower(lines[i].product.name)
  {
    if lines == [] then [] else LineNames(lines[..|lines| - 1]) + [ToLower(lines[|lines| - 1].product.name)]
  }

  /** The inner loop over the records of one history: the diagnoses are
      extended record by record, and the first record without one stops it. */
  method RecordDiagnoses(ghost before: seq<Record>, records: seq<Record>, diagnoses: seq<string>)
    returns (d: seq<string>, missing: Option<int>)
    requires Diagnoses(before) == Some(diagnoses)
    ensures missing.None? ==> Diagnoses(before + records) == Some(d)
    ensures missing.Some? ==> 0 <= missing.value < |records| && "diagnostico" !in records[missing.value]
  {
    d := diagnoses;
    assert before + records[..0] == before;
    var j := 0;
    while j < |records|
      invariant 0 <= j <= |records|
      invariant Diagnoses(before + records[..j]) == Some(d)
    {
      var prefix := before + records[..j];
      assert (prefix + [records[j]])[..|prefix|] == prefix;
      assert prefix + [records[j]] == before + records[..j + 1];
      if "diagnostico" !in records[j] {
        return d, Some(j);
      }
      d := d + [ToLower(records[j]["diagnostico"])];
      j := j + 1;
    }
    assert records[..j] == records;
    return d, None;
  }

  /** The inner loop over the lines of one sale: the lower-case product names, in order. */
  method LineNamesOf(ghost before: seq<SaleLine>, lines: seq<SaleLine>, names: seq<string>)
    returns (r: seq<string>)
    requires names == LineNames(before)
    ensures r == LineNames(before + lines)
  {
    r := names;
    assert before + lines[..0] == before;
    var j := 0;
    while j < |lines|
      invariant 0 <= j <= |lines|
      invariant r == LineNames(before + lines[..j])
    {
      var prefix := before + lines[..j];
      assert (prefix + [lines[j]])[..|prefix|] == prefix;
      assert prefix + [lines[j]] == before + lines[..j + 1];
      r := r + [ToLower(lines[j].product.name)];
      j := j + 1;
    }
    assert lines[..j] == lines;
  }

  /** The client-list loop over the histories: each client name is added
      to the sorted, duplicate-free list. */
  method AddHistoryClients(ghost before: seq<string>, names: seq<string>, hs: seq<History>)
    returns (r: seq<string>)
    requires names == SortedSet(before)
    ensures r == SortedSet(before + HistoryClients(hs))
  {
    ghost var clients := HistoryClients(hs);
    r := names;
    ghost var seen := before;
    assert before + clients[..0] == before;
    var i := 0;
    while i < |hs|
      invariant 0 <= i <= |hs|
      invariant seen == before + clients[..i]
      invariant r == SortedSet(seen)
    {
      assert clients[..i + 1] == clients[..i] + [hs[i].clientName];
      SortedSetSnoc(seen, hs[i].clientName);
      r := Insert(r, hs[i].clientName);
      seen := seen + [hs[i].clientName];
      i := i + 1;
    }
    assert clients[..i] == clients;
  }

  /** The client-list loop over the sales: each sale's client is added to
      the sorted, duplicate-free list. */
  method AddSaleClients(ghost before: seq<string>, names: seq<string>, sales: seq<Sale>)
    returns (r: seq<string>)
    requires names == SortedSet(before)
    ensures r == SortedSet(before + SaleClients(sales))
  {
    ghost var clients := SaleClients(sales);
    r := names;
    ghost var seen := before;
    assert before + clients[..0] == before;
    var j := 0;
    while j < |sales|
      invariant 0 <= j <= |sales|
      invariant seen == before + clients[..j]
      invariant r == SortedSet(seen)
    {
      assert clients[..j + 1] == clients[..j] + [sales[j].client];
      SortedSetSnoc(seen, sales[j].client);
      r := Insert(r, sales[j].client);
      seen := seen + [sales[j].client];
      j := j + 1;
    }
    assert clients[..j] == clients;
  }

  /** The search loop over the histories: the names matching the term are
      appended to those found so far, in list order. */
  method MatchHistoryClients(ghost before: seq<string>, found: seq<string>, hs: seq<History>, term: string)
    returns (r: seq<string>)
    requires found == MatchingClients(before, term)
    ensures r == MatchingClients(before + HistoryClients(hs), term)
  {
    ghost var names := HistoryClients(hs);
    r := found;
    ghost var seen := before;
    assert before + names[..0] == before;
    var i := 0;
    while i < |hs|
      invariant 0 <= i <= |hs|
      invariant seen == before + names[..i]
      invariant r == MatchingClients(seen, term)
    {
      assert names[..i + 1] == names[..i] + [hs[i].clientName];
      MatchingSnoc(seen, hs[i].clientName, term);
      if Contains(ToLower(hs[i].clientName), ToLower(term)) {
        r := r + [hs[i].clientName];
      }
      seen := seen + [hs[i].clientName];
      i := i + 1;
    }
    assert names[..i] == names;
  }

  /** The search loop over the sales: the clients matching the term are
      appended to those found so far, in list order. */
  method MatchSaleClients(ghost before: seq<string>, found: seq<string>, sales: seq<Sale>, term: string)
    returns (r: seq<string>)
    requires found == MatchingClients(before, term)
    ensures r == MatchingClients(before + SaleClients(sales), term)
  {
    ghost var names := SaleClients(sales);
    r := found;
    ghost var seen := before;
    assert before + names[..0] == before;
    var j := 0;
    while j < |sales|
      invariant 0 <= j <= |sales|
      invariant seen == before + names[..j]
      invariant r == MatchingClients(seen, term)
    {
      assert names[..j + 1] == names[..j] + [sales[j].client];
      MatchingSnoc(seen, sales[j].client, term);
      if Contains(ToLower(sales[j].client), ToLower(term)) {
        r := r + [sales[j].client];
      }
      seen := seen + [sales[j].client];
      j := j + 1;
    }
    assert names[..j] == names;
  }

  /** `generar_recomendaciones_inteligentes`. A record without a diagnosis
      aborts the analysis and gives the single fallback recommendation. The
      elapsed-days rule applies only when the client has histories; `elapsed`
      stands for the days from the latest record date to now, and is `None`
      when the date loop is abandoned: one record whose date is missing or
      does not parse ends the whole loop through the bare `except`, even when
      other dates would parse. */
  method Recommendations(hs: seq<History>, sales: seq<Sale>, elapsed: Option<int>) returns (r: seq<string>)
    ensures Diagnoses(AllRecords(hs)).None? ==> r == [RegularVisits]
    ensures Diagnoses(AllRecords(hs)).Some? ==>
      r == Recommend(Diagnoses(AllRecords(hs)).value, LineNames(AllLines(sales)), if hs == [] then None else elapsed)
    ensures r != []
  {
    var diagnoses: seq<string> := [];
    var i := 0;
    while i < |hs|
      invariant 0 <= i <= |hs|
      invariant Diagnoses(AllRecords(hs[..i])) == Some(diagnoses)
    {
      assert AllRecords(hs[..i + 1]) == AllRecords(hs[..i]) + hs[i].records by {
        assert hs[..i + 1][..i] == hs[..i];
      }
      var missing;
      diagnoses, missing := RecordDiagnoses(AllRecords(hs[..i]), hs[i].records, diagnoses);
      if missing.Some? {
        MissingDiagnosis(hs, i, missing.value);
        return [RegularVisits];
      }
      i := i + 1;
    }
    assert hs[..i] == hs;
    var products: seq<string> := [];
    var k := 0;
    while k < |sales|
      invariant 0 <= k <= |sales|
      invariant products == LineNames(AllLines(sales[..k]))
    {
      assert AllLines(sales[..k + 1]) == AllLines(sales[..k]) + sales[k].lines by {
        assert sales[..k + 1][..k] == sales[..k];
      }
      products := LineNamesOf(AllLines(sales[..k]), sales[k].lines, products);
      k := k + 1;
    }
    assert sales[..k] == sales;
    r := Recommend(diagnoses, products, if hs == [] then None else elapsed);
  }

  /** A record without a diagnosis anywhere makes the whole analysis fail. */
  lemma MissingDiagnosis(hs: seq<History>, i: int, j: int)
    requires 0 <= i < |hs| && 0 <= j < |hs[i].records|
    requires "diagnostico" !in hs[i].records[j]
    ensures Diagnoses(AllRecords(hs)).None?
  {
    var pre := AllRecords(hs[..i]);
    assert hs[..i + 1][..i] == hs[..i];
    assert AllRecords(hs[..i + 1]) == pre + hs[i].records;
    assert hs == hs[..i + 1] + hs[i + 1..];
    AllRecordsAppend(hs[..i + 1], hs[i + 1..]);
    var all := AllRecords(hs);
    assert all == pre + hs[i].records + AllRecords(hs[i + 1..]);
    var at := |pre| + j;
    assert all[at] == hs[i].records[j];
  }

  // ------------------------------------------------------------ access

  /** The role kinds that open the veterinarian's view by name. */
  const VetRoleNames: seq<string> := ["veterinario", "administrador", "4"]

  /** The compatibility fallback: the lowered `tipo`, `id` or `nombre` names a veterinarian role. */
  predicate NamedVetRole(d: Roles.RoleDict)
    ensures NamedVetRole(d) ==> "tipo" in d || "id" in d || "nombre" in d
  {
    || ToLower(Roles.StrGet(d, "tipo", "")) in VetRoleNames
    || ToLower(Roles.StrGet(d, "id", "")) in VetRoleNames
    || ToLower(Roles.StrGet(d, "nombre", "")) in VetRoleNames
  }

  /** `validar_acceso_veterinario`. `'p' in permisos` is list membership for a
      list and substring search for a text; on a number it raises TypeError,
      which the `except Exception` clause turns into False. */
  function ValidateVetAccess(role: Option<Roles.RoleDict>): (r: bool)
    ensures !Roles.IsSet(role) ==> !r
    ensures Roles.IsSet(role) && "historiales_clinicos" in Roles.PermissionList(role.value) ==> r
    ensures Roles.IsSet(role) && Roles.AllFunctions in Roles.PermissionList(role.value) ==> r
    ensures Roles.IsSet(role) && ("permisos" !in role.value || role.value["permisos"].Items?) ==>
      (r <==> "historiales_clinicos" in Roles.PermissionList(role.value) ||
              Roles.AllFunctions in Roles.PermissionList(role.value) || NamedVetRole(role.value))
    ensures Roles.IsSet(role) && "permisos" in role.value && role.value["permisos"].Number? ==> !r
  {
    if !Roles.IsSet(role) then false
    else
      var d := role.value;
      var permissions := if "permisos" in d then d["permisos"] else Roles.Items([]);
      match permissions
      case Number(_) => false
      case Items(items) =>
        "historiales_clinicos" in items || Roles.AllFunctions in items || NamedVetRole(d)
      case Text(s) =>
        Contains(s, "historiales_clinicos") || Contains(s, Roles.AllFunctions) || NamedVetRole(d)
  }

  /** When the role manager grants the clinical-history permission to the
      current role, the veterinarian's view accepts that role too. */
  lemma RoleAccessGrantsVetAccess(m: Roles.RoleManager)
    requires m.ValidateRoleAccess(["historiales_clinicos"])
    ensures ValidateVetAccess(m.currentRole)
  {
    var permissions := Roles.PermissionList(m.currentRole.value);
    if Roles.AllFunctions !in permissions {
      var p :| p in ["historiales_clinicos"] && p in permissions;
      assert p == "historiales_clinicos";
    }
  }

  // ------------------------------------------------------------ the lookup

  /** The consultation over the class-level lists of histories and sales. */
  class VetLookup {
    const book: HistoryBook
    const salesBook: SalesBook

    constructor (book: HistoryBook, salesBook: SalesBook)
      ensures this.book == book && this.salesBook == salesBook
    {
      this.book, this.salesBook := book, salesBook;
    }

    /** `obtener_lista_clientes`: the sorted, duplicate-free names of every
        client of a history or a sale. */
    method ClientList() returns (r: seq<string>)
      ensures r == SortedSet(ClientNames(book.histories, salesBook.sales))
      ensures StrictlySorted(r)
      ensures forall n :: n in r <==> n in ClientNames(book.histories, salesBook.sales)
    {
      var hs, sales := book.histories, salesBook.sales;
      r := AddHistoryClients([], [], hs);
      assert [] + HistoryClients(hs) == HistoryClients(hs);
      r := AddSaleClients(HistoryClients(hs), r, sales);
    }

    /** `buscar_clientes_por_termino`: the sorted, duplicate-free names that
        contain the term ignoring case; each is a known client. */
    method SearchClients(term: string) returns (r: seq<string>)
      ensures r == SortedSet(MatchingClients(ClientNames(book.histories, salesBook.sales), term))
      ensures StrictlySorted(r)
      ensures forall n :: n in r <==> n in ClientNames(book.histories, salesBook.sales) && MatchesTerm(n, term)
    {
      var hs, sales := book.histories, salesBook.sales;
      var found := MatchHistoryClients([], [], hs, term);
      assert [] + HistoryClients(hs) == HistoryClients(hs);
      found := MatchSaleClients(HistoryClients(hs), found, sales, term);
      r := SortedSet(found);
    }

    /** `obtener_historial_completo_cliente`: the client's histories and
        purchases, matched by name ignoring case, in list order. */
    method FullHistory(name: string) returns (hs: seq<History>, purchases: seq<Sale>)
      ensures hs == HistoriesOf(book.histories, name)
      ensures purchases == PurchasesOf(salesBook.sales, name)
    {
      var all, sales := book.histories, salesBook.sales;
      hs := [];
      var i := 0;
      while i < |all|
        invariant 0 <= i <= |all|
        invariant hs == HistoriesOf(all[..i], name)
      {
        assert all[..i + 1][..i] == all[..i];
        if ToLower(all[i].clientName) == ToLower(name) {
          hs := hs + [all[i]];
        }
        i := i + 1;
      }
      assert all[..i] == all;
      purchases := [];
      var j := 0;
      while j < |sales|
        invariant 0 <= j <= |sales|
        invariant purchases == PurchasesOf(sales[..j], name)
      {
        assert sales[..j + 1][..j] == sales[..j];
        if ToLower(sales[j].client) == ToLower(name) {
          purchases := purchases + [sales[j]];
        }
        j := j + 1;
      }
      assert sales[..j] == sales;
    }

    /** `verificar_cliente_existe`: exact, case-sensitive membership in the client list. */
    method ClientExists(name: string) returns (r: bool)
      ensures r <==> (exists h :: h in book.histories && h.clientName == name) ||
                     (exists s :: s in salesBook.sales && s.client == name)
    {
      var clients := ClientList();
      return name in clients;
    }
  }
}
