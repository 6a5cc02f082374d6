/**
  `OptionComparison` (components/smarttrip/OptionComparison.tsx): one card per
  alternative itinerary, in the order the server sent them; the card whose option
  id equals `recomendacao` is marked recommended, and clicking a card hands its
  option to the `onSelect` callback.
 */
module OptionComparison {
  import opened Api
  import ScoreBar

  datatype ButtonVariant = Contained | Outlined

  /**
    What one card shows and does: its React key, the option it stands for (the one
    its `onClick` passes to `onSelect`), the recommended marking (border, background
    and chip), the select button's variant, the three score bars, and whether the
    advantages and disadvantages blocks appear.
   */
  datatype Card = Card(
    key: int,
    option: OpcaoViagem,
    recommended: bool,
    button: ButtonVariant,
    bars: seq<ScoreBar.Bar>,
    showVantagens: bool,
    showDesvantagens: bool)

  /** The card of one option. */
  function CardFor(opcao: OpcaoViagem, recomendacao: int): (c: Card)
    ensures c.key == opcao.id && c.option == opcao
    ensures c.recommended <==> opcao.id == recomendacao
    ensures c.button == Contained <==> c.recommended
    ensures c.showVantagens <==> |opcao.vantagens| > 0
    ensures c.showDesvantagens <==> |opcao.desvantagens| > 0
    ensures |c.bars| == 3
    ensures c.bars[0].value == opcao.pontuacao.custo * 10.0
    ensures c.bars[1].value == opcao.pontuacao.tempo * 10.0
    ensures c.bars[2].value == opcao.pontuacao.conforto * 10.0
  {
    var isRecommended := opcao.id == recomendacao;
    Card(
      opcao.id,
      opcao,
      isRecommended,
      if isRecommended then Contained else Outlined,
      [ScoreBar.Render("Custo", opcao.pontuacao.custo),
       ScoreBar.Render("Tempo", opcao.pontuacao.tempo),
       ScoreBar.Render("Conforto", opcao.pontuacao.conforto)],
      |opcao.vantagens| > 0,
      |opcao.desvantagens| > 0)
  }

  /** `opcoes.map(...)`: one card per option, in input order. */
  function Cards(opcoes: seq<OpcaoViagem>, recomendacao: int): (cs: seq<Card>)
    ensures |cs| == |opcoes|
    ensures forall i :: 0 <= i < |opcoes| ==> cs[i] == CardFor(opcoes[i], recomendacao)
    decreases |opcoes|
  {
    if opcoes == [] then []
    else [CardFor(opcoes[0], recomendacao)] + Cards(opcoes[1..], recomendacao)
  }

  /** The option a click on the card passes to `onSelect`. */
  function OnClick(card: Card): (selected: OpcaoViagem)
    ensures selected == card.option
  {
    card.option
  }

  /** Clicking the card at position `i` selects exactly the option at position `i`. */
  lemma ClickSelectsOwnOption(opcoes: seq<OpcaoViagem>, recomendacao: int, i: nat)
    requires i < |opcoes|
    ensures OnClick(Cards(opcoes, recomendacao)[i]) == opcoes[i]
  {
  }

  /** A card is marked, and its button filled, exactly when its option's id is `recomendacao`. */
  lemma RecommendedIffIdMatches(opcoes: seq<OpcaoViagem>, recomendacao: int, i: nat)
    requires i < |opcoes|
    ensures Cards(opcoes, recomendacao)[i].recommended <==> opcoes[i].id == recomendacao
    ensures Cards(opcoes, recomendacao)[i].button == Contained <==> opcoes[i].id == recomendacao
  {
  }

  /**
    There is no fallback: when `recomendacao` names no option, no card is marked,
    not the first one and not the one ranked 1.
   */
  lemma NoFallback(opcoes: seq<OpcaoViagem>, recomendacao: int)
    requires forall i :: 0 <= i < |opcoes| ==> opcoes[i].id != recomendacao
    ensures forall i :: 0 <= i < |opcoes| ==> !Cards(opcoes, recomendacao)[i].recommended
  {
  }

  predicate DistinctIds(opcoes: seq<OpcaoViagem>)
  {
    forall i, j :: 0 <= i < j < |opcoes| ==> opcoes[i].id != opcoes[j].id
  }

  /** With pairwise distinct ids, at most one card is marked recommended. */
  lemma AtMostOneRecommended(opcoes: seq<OpcaoViagem>, recomendacao: int)
    requires DistinctIds(opcoes)
    ensures var cs := Cards(opcoes, recomendacao);
      forall i, j :: 0 <= i < |cs| && 0 <= j < |cs| && cs[i].recommended && cs[j].recommended ==> i == j
  {
  }
}
