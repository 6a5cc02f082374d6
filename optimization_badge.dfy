/**
  `OptimizationBadge` (components/smarttrip/OptimizationBadge.tsx): the constant
  table `badges` that gives, for each optimisation level the server reports, the
  colours, icon, title and description of the badge, and the badge itself, which
  also shows the server's note.
 */
module OptimizationBadge {

  /** `nivel: 'otima' | 'boa' | 'viavel' | 'basica' | 'erro'`. */
  datatype Nivel = Otima | Boa | Viavel | Basica | Erro

  datatype BadgeStyle = BadgeStyle(color: string, bgColor: string, icon: string, text: string, description: string)

  const Star: char := '⭐'

  /** The number of stars in an icon string. */
  function StarCount(icon: string): (n: nat)
    ensures n <= |icon|
    ensures n == 0 <==> Star !in icon
  {
    if icon == [] then 0
    else (if icon[0] == Star then 1 else 0) + StarCount(icon[1..])
  }

  /** `badges[nivel]`: the table is total over the five levels. */
  function Badges(nivel: Nivel): (b: BadgeStyle)
    ensures nivel == Otima <==> b.text == "Solução Ótima"
    ensures nivel == Erro <==> b.text == "Sem Solução"
  {
    match nivel
    case Otima => BadgeStyle("#4caf50", "#e8f5e9", "⭐⭐⭐⭐⭐", "Solução Ótima", "Melhor resultado possível")
    case Boa => BadgeStyle("#2196f3", "#e3f2fd", "⭐⭐⭐⭐", "Solução Relaxada", "Excelente resultado")
    case Viavel => BadgeStyle("#ff9800", "#fff3e0", "⭐⭐⭐", "Solução Viável", "Resultado aproximado")
    case Basica => BadgeStyle("#ff5722", "#fbe9e7", "⭐⭐", "Solução Básica", "Rota simplificada")
    case Erro => BadgeStyle("#f44336", "#ffebee", "⚠️", "Sem Solução", "Nenhum voo disponível")
  }

  /** The level's place from best to worst. */
  function Rank(nivel: Nivel): (r: nat)
    ensures r <= 4
  {
    match nivel
    case Otima => 0
    case Boa => 1
    case Viavel => 2
    case Basica => 3
    case Erro => 4
  }

  /**
    Stars go 5, 4, 3, 2 from `otima` to `basica`, so a better level always shows more
    stars; `erro` shows a warning sign and no star.
   */
  lemma StarsDecrease(a: Nivel, b: Nivel)
    requires Rank(a) < Rank(b)
    ensures StarCount(Badges(a).icon) > StarCount(Badges(b).icon)
    ensures StarCount(Badges(a).icon) == 5 - Rank(a)
    ensures b == Erro <==> StarCount(Badges(b).icon) == 0
  {
    StarsOf(a);
    StarsOf(b);
  }

  /** The number of stars in one level's icon. */
  lemma StarsOf(nivel: Nivel)
    ensures StarCount(Badges(nivel).icon) == if nivel == Erro then 0 else 5 - Rank(nivel)
  {
    match nivel
    case Otima =>
      assert StarCount("⭐⭐⭐⭐⭐") == 1 + StarCount("⭐⭐⭐⭐");
    case Boa =>
      assert StarCount("⭐⭐⭐⭐") == 1 + StarCount("⭐⭐⭐");
    case Viavel =>
      assert StarCount("⭐⭐⭐") == 1 + StarCount("⭐⭐");
    case Basica =>
      assert StarCount("⭐⭐") == 1 + StarCount("⭐");
    case Erro =>
  }

  /** No two levels share a title or a colour, so the badge tells the level apart. */
  lemma BadgesInjective(a: Nivel, b: Nivel)
    ensures Badges(a).text == Badges(b).text ==> a == b
    ensures Badges(a).color == Badges(b).color ==> a == b
    ensures Badges(a).bgColor == Badges(b).bgColor ==> a == b
  {
  }

  /** What the badge shows: the level's style and, below it, the note exactly as given. */
  datatype BadgeView = BadgeView(style: BadgeStyle, note: string)

  function Render(nivel: Nivel, nota: string): (v: BadgeView)
    ensures v.note == nota
    ensures v.style == Badges(nivel)
  {
    BadgeView(Badges(nivel), nota)
  }
}
