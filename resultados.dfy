/**
  The results page (pages/smartTrip-AI/resultados.tsx): three demonstration
  options, the colour of a 0–100 option score and of a comfort level, the list of
  result cards, and the one piece of page state, the id of the card whose details
  are expanded.
 */
module Resultados {
  import opened Wrappers
  import opened Palette
  import JsString

  datatype Flight = Flight(origem: string, destino: string, horario_saida: string, horario_chegada: string,
                           duracao: string, preco: int, classe: string)
  datatype Flights = Flights(companhia: string, ida: Flight, volta: Flight)
  datatype Hotel = Hotel(nome: string, categoria: int, preco_total: int, preco_diaria: int, localizacao: string)
  datatype Car = Car(tipo: string, empresa: string, preco_total: int, preco_diaria: int)
  datatype Meals = Meals(preco_total: int, nivel: string)

  /** `TravelOption`: one demonstration itinerary; `carro` is optional. */
  datatype TravelOption = TravelOption(
    id: int,
    score: real,
    custo_total: int,
    tempo_total: int,
    nivel_conforto: string,
    voo: Flights,
    hospedagem: Hotel,
    carro: Option<Car>,
    alimentacao: Meals)

  /** `mockResults`. */
  const MockResults: seq<TravelOption> := [
    TravelOption(1, 95.0, 8500, 18, "Alto",
      Flights("LATAM",
        Flight("GYN", "RIO", "08:00", "10:30", "2h 30m", 1200, "Econômica"),
        Flight("RIO", "GYN", "18:00", "20:30", "2h 30m", 1300, "Econômica")),
      Hotel("Copacabana Palace", 5, 4500, 300, "Copacabana"),
      Some(Car("Sedan", "Localiza", 900, 60)),
      Meals(600, "Médio")),
    TravelOption(2, 88.0, 6200, 20, "Médio",
      Flights("GOL",
        Flight("GYN", "RIO", "14:00", "16:45", "2h 45m", 900, "Econômica"),
        Flight("RIO", "GYN", "20:00", "22:45", "2h 45m", 950, "Econômica")),
      Hotel("Ibis Copacabana", 3, 3000, 200, "Copacabana"),
      Some(Car("Econômico", "Movida", 750, 50)),
      Meals(600, "Médio")),
    TravelOption(3, 82.0, 4800, 22, "Básico",
      Flights("Azul",
        Flight("GYN", "RIO", "06:00", "08:50", "2h 50m", 750, "Econômica"),
        Flight("RIO", "GYN", "22:00", "00:50", "2h 50m", 800, "Econômica")),
      Hotel("Hotel Atlântico Sul", 2, 2100, 140, "Centro"),
      Some(Car("Econômico", "Unidas", 600, 40)),
      Meals(550, "Básico"))
  ]

  /** The length of the demonstration stay, as the page's header chip says ("15 dias"). */
  const StayDays: int := 15

  /** The option's total is the sum of both fares, the hotel, the car (if any) and the meals. */
  predicate CostsAddUp(o: TravelOption)
  {
    o.custo_total
      == o.voo.ida.preco + o.voo.volta.preco + o.hospedagem.preco_total
         + (if o.carro.Some? then o.carro.value.preco_total else 0) + o.alimentacao.preco_total
  }

  /** Hotel and car totals are the daily rate times the length of the stay. */
  predicate DailyRatesAddUp(o: TravelOption)
  {
    && o.hospedagem.preco_total == StayDays * o.hospedagem.preco_diaria
    && (o.carro.Some? ==> o.carro.value.preco_total == StayDays * o.carro.value.preco_diaria)
  }

  lemma MockResultsConsistent()
    ensures forall i :: 0 <= i < |MockResults| ==> CostsAddUp(MockResults[i]) && DailyRatesAddUp(MockResults[i])
  {
  }

  /** The demonstration options come best first: scores 95, 88, 82, strictly falling; ids are distinct. */
  lemma MockResultsRanked()
    ensures |MockResults| == 3
    ensures forall i, j :: 0 <= i < j < |MockResults| ==> MockResults[i].score > MockResults[j].score
    ensures forall i, j :: 0 <= i < j < |MockResults| ==> MockResults[i].id != MockResults[j].id
  {
  }

  /** `getScoreColor`: the tier of a 0–100 option score, with lower bounds 90 and 80 inclusive. */
  function GetScoreColor(score: real): (c: Color)
    ensures c == Success <==> score >= 90.0
    ensures c == Warning <==> 80.0 <= score < 90.0
    ensures c == Error <==> score < 80.0
  {
    if score >= 90.0 then Success
    else if score >= 80.0 then Warning
    else Error
  }

  /** A higher score never gets a worse tier. */
  lemma GetScoreColorMonotone(s1: real, s2: real)
    requires s1 <= s2
    ensures TierRank(GetScoreColor(s2)) <= TierRank(GetScoreColor(s1))
  {
  }

  const Alto: string := "alto"
  const Medio: string := "médio"

  /** `getConfortoColor`: `switch (nivel.toLowerCase())` over `'alto'` and `'médio'`. */
  function GetConfortoColor(nivel: string): (c: Color)
    ensures c == Success <==> JsString.ToLower(nivel) == Alto
    ensures c == Warning <==> JsString.ToLower(nivel) == Medio
    ensures c == Default <==> JsString.ToLower(nivel) != Alto && JsString.ToLower(nivel) != Medio
  {
    var lowered := JsString.ToLower(nivel);
    if lowered == Alto then Success
    else if lowered == Medio then Warning
    else Default
  }

  /** The comfort colour ignores case: a level and its lower-cased form get the same colour. */
  lemma GetConfortoColorCaseInsensitive(nivel: string)
    ensures GetConfortoColor(JsString.ToLower(nivel)) == GetConfortoColor(nivel)
  {
    JsString.ToLowerIdempotent(nivel);
  }

  /** `t` is `s` lowered character by character. */
  lemma LowersTo(s: string, t: string)
    requires |s| == |t| && forall i :: 0 <= i < |s| ==> JsString.LowerChar(s[i]) == t[i]
    ensures JsString.ToLower(s) == t
  {
  }

  /** The three levels of the demonstration data, in their capitalised spelling. */
  lemma GetConfortoColorOfMockLevels()
    ensures GetConfortoColor("Alto") == Success
    ensures GetConfortoColor("ALTO") == Success
    ensures GetConfortoColor("Médio") == Warning
    ensures GetConfortoColor("MÉDIO") == Warning
    ensures GetConfortoColor("Básico") == Default
  {
    LowersTo("Alto", Alto);
    LowersTo("ALTO", Alto);
    LowersTo("Médio", Medio);
    LowersTo("MÉDIO", Medio);
    LowersTo("Básico", "básico");
  }

  // ---------------------------------------------------------------------------
  // The expanded card

  /** `expandedId === id ? null : id`. */
  function Toggle(expandedId: Option<int>, id: int): (next: Option<int>)
    ensures next == None <==> expandedId == Some(id)
    ensures next != None ==> next == Some(id)
  {
    if expandedId == Some(id) then None else Some(id)
  }

  /** Opening a card and clicking it again closes it; clicking another card moves the expansion there. */
  lemma ToggleProperties(expandedId: Option<int>, id: int, other: int)
    requires other != id
    ensures Toggle(Toggle(None, id), id) == None
    ensures Toggle(Toggle(expandedId, id), other) == Some(other)
    ensures Toggle(expandedId, id) != Some(other)
  {
  }

  /** The page's `expandedId` state and `handleExpandClick`. */
  class ExpandState {
    var expandedId: Option<int>

    constructor ()
      ensures expandedId == None
    {
      expandedId := None;
    }

    /** `expandedId === option.id`: whether the card's details are open. */
    predicate IsExpanded(id: int)
      reads this
    {
      expandedId == Some(id)
    }

    method HandleExpandClick(id: int)
      modifies this
      ensures expandedId == Toggle(old(expandedId), id)
      ensures IsExpanded(id) <==> !old(IsExpanded(id))
      ensures forall other :: other != id ==> !IsExpanded(other)
    {
      expandedId := if expandedId == Some(id) then None else Some(id);
    }
  }

  // ---------------------------------------------------------------------------
  // The list of cards

  /**
    What one result card shows: its key, whether it is the highlighted best option
    (border and "MELHOR OPÇÃO" chip), its score and comfort colours, and whether its
    details are expanded.
   */
  datatype ResultCard = ResultCard(key: int, best: bool, scoreColor: Color, confortoColor: Color, detailsOpen: bool)

  /** `mockResults.map((option, index) => ...)`. */
  function ResultCards(options: seq<TravelOption>, expandedId: Option<int>): (cs: seq<ResultCard>)
    ensures |cs| == |options|
    ensures forall i :: 0 <= i < |cs| ==> cs[i].key == options[i].id
    ensures forall i :: 0 <= i < |cs| ==> (cs[i].best <==> i == 0)
    ensures forall i :: 0 <= i < |cs| ==> cs[i].scoreColor == GetScoreColor(options[i].score)
    ensures forall i :: 0 <= i < |cs| ==> cs[i].confortoColor == GetConfortoColor(options[i].nivel_conforto)
    ensures forall i :: 0 <= i < |cs| ==> (cs[i].detailsOpen <==> expandedId == Some(options[i].id))
  {
    seq(|options|, i requires 0 <= i < |options| =>
      ResultCard(options[i].id, i == 0, GetScoreColor(options[i].score),
                 GetConfortoColor(options[i].nivel_conforto), expandedId == Some(options[i].id)))
  }

  /** With distinct ids, at most one card has its details open, whatever the state. */
  lemma AtMostOneOpen(options: seq<TravelOption>, expandedId: Option<int>)
    requires forall i, j :: 0 <= i < j < |options| ==> options[i].id != options[j].id
    ensures var cs := ResultCards(options, expandedId);
      forall i, j :: 0 <= i < |cs| && 0 <= j < |cs| && cs[i].detailsOpen && cs[j].detailsOpen ==> i == j
  {
  }

  /** On the demonstration data: success, warning, warning for the scores; success, warning, default for comfort. */
  lemma MockResultCards(expandedId: Option<int>)
    ensures var cs := ResultCards(MockResults, expandedId);
      && |cs| == 3
      && cs[0].best && !cs[1].best && !cs[2].best
      && cs[0].scoreColor == Success && cs[1].scoreColor == Warning && cs[2].scoreColor == Warning
      && cs[0].confortoColor == Success && cs[1].confortoColor == Warning && cs[2].confortoColor == Default
  {
    GetConfortoColorOfMockLevels();
  }
}
