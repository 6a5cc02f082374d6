/**
  The trip form page (pages/smartTrip-AI/viagens.tsx): the form record held in
  React state, the handlers that replace one of its fields, the weight
  normalisation button, and the earliest date the return-date input accepts.
 */
module Viagens {
  import opened Wrappers
  import JsString
  import IsoDate

  /** The keys of `TravelFormData`. */
  datatype Field =
    | DataIda | DataRetorno
    | CidadeOrigemIda | CidadeDestino | CidadeOrigemRetorno | CidadeDestinoRetorno
    | NumeroViajantes | PerfilViajante
    | NecessitaHospedagem | CategoriaHotel
    | NecessitaCarro | TipoCarro
    | IncluirAlimentacao | TipoCustoAlimentacao | NivelAlimentacao | ValorDiarioAlimentacao
    | PesoCusto | PesoTempo | PesoConforto
    | OrcamentoMaximo

  /**
    A value a form field can hold. The handlers store whatever the event carries, so
    a field keeps the JavaScript type of the widget that last wrote it (a number
    text field, for one, yields a string).
   */
  datatype JsValue = Str(s: string) | Num(n: real) | Bool(b: bool) | NumList(ns: seq<real>)

  type FormData = map<Field, JsValue>

  /** Every key of `TravelFormData` is present. */
  predicate Complete(form: FormData)
  {
    forall f: Field :: f in form
  }

  /** The value each field of `formData` starts with. */
  function InitialValue(f: Field): JsValue
  {
    match f
    case DataIda => Str("")
    case DataRetorno => Str("")
    case CidadeOrigemIda => Str("")
    case CidadeDestino => Str("")
    case CidadeOrigemRetorno => Str("")
    case CidadeDestinoRetorno => Str("")
    case NumeroViajantes => Num(1.0)
    case PerfilViajante => Str("padrao")
    case NecessitaHospedagem => Bool(true)
    case CategoriaHotel => Num(3.0)
    case NecessitaCarro => Bool(false)
    case TipoCarro => Str("economico")
    case IncluirAlimentacao => Bool(true)
    case TipoCustoAlimentacao => Str("nivel")
    case NivelAlimentacao => Str("medio")
    case ValorDiarioAlimentacao => Num(0.0)
    case PesoCusto => Num(0.5)
    case PesoTempo => Num(0.3)
    case PesoConforto => Num(0.2)
    case OrcamentoMaximo => Num(10000.0)
  }

  /** The initial `formData`: every field present, the weights 0.5, 0.3 and 0.2, no dates yet. */
  function InitialFormData(): (form: FormData)
    ensures Complete(form)
    ensures WeightTotal(form) == Some(1.0)
    ensures form[DataIda] == Str("") && form[DataRetorno] == Str("")
  {
    map f: Field | true :: InitialValue(f)
  }

  /** `{ ...form, [field]: value }`: the named field gets the value, every other field keeps its own. */
  function Assign(form: FormData, field: Field, value: JsValue): (r: FormData)
    ensures r.Keys == form.Keys + {field}
    ensures r[field] == value
    ensures forall f :: f in form && f != field ==> r[f] == form[f]
  {
    form[field := value]
  }

  /** The second argument of a slider's `onChange`: `number | number[]`. */
  datatype SliderValue = One(value: real) | Many(values: seq<real>)

  function SliderJs(v: SliderValue): (j: JsValue)
    ensures v.One? ==> j == Num(v.value)
    ensures v.Many? ==> j == NumList(v.values)
  {
    match v
    case One(x) => Num(x)
    case Many(xs) => NumList(xs)
  }

  /** The two buttons that choose how the food cost is given: by level or by a daily amount. */
  datatype FoodCostType = ByLevel | ByValue

  function FoodCostTypeJs(t: FoodCostType): (j: JsValue)
    ensures t == ByLevel <==> j == Str("nivel")
    ensures t == ByValue <==> j == Str("valor")
  {
    match t
    case ByLevel => Str("nivel")
    case ByValue => Str("valor")
  }

  // ---------------------------------------------------------------------------
  // Weight normalisation

  /** `peso_custo + peso_tempo + peso_conforto`, when the three weights are numbers. */
  function WeightTotal(form: FormData): (t: Option<real>)
    requires Complete(form)
    ensures t.Some? <==> form[PesoCusto].Num? && form[PesoTempo].Num? && form[PesoConforto].Num?
    ensures t.Some? ==> t.value == form[PesoCusto].n + form[PesoTempo].n + form[PesoConforto].n
  {
    match (form[PesoCusto], form[PesoTempo], form[PesoConforto])
    case (Num(c), Num(t), Num(k)) => Some(c + t + k)
    case _ => None
  }

  predicate IsWeight(f: Field)
  {
    f == PesoCusto || f == PesoTempo || f == PesoConforto
  }

  /** `normalizarPesos`: divide each weight by the total when the total is positive; otherwise nothing changes. */
  function Normalized(form: FormData): (r: FormData)
    requires Complete(form)
    ensures Complete(r) && r.Keys == form.Keys
    ensures forall f :: !IsWeight(f) ==> r[f] == form[f]
    ensures WeightTotal(form).None? || WeightTotal(form).value <= 0.0 ==> r == form
    ensures WeightTotal(form).Some? && WeightTotal(form).value > 0.0 ==>
      var t := WeightTotal(form).value;
      && r[PesoCusto] == Num(form[PesoCusto].n / t)
      && r[PesoTempo] == Num(form[PesoTempo].n / t)
      && r[PesoConforto] == Num(form[PesoConforto].n / t)
  {
    var total := WeightTotal(form);
    if total.Some? && total.value > 0.0 then
      var t := total.value;
      form[PesoCusto := Num(form[PesoCusto].n / t)]
          [PesoTempo := Num(form[PesoTempo].n / t)]
          [PesoConforto := Num(form[PesoConforto].n / t)]
    else form
  }

  /** After a normalisation that applied, the weights add up to 1 (in exact arithmetic). */
  lemma NormalizedSumsToOne(form: FormData)
    requires Complete(form)
    requires WeightTotal(form).Some? && WeightTotal(form).value > 0.0
    ensures WeightTotal(Normalized(form)) == Some(1.0)
  {
    var t := WeightTotal(form).value;
    var c, m, k := form[PesoCusto].n, form[PesoTempo].n, form[PesoConforto].n;
    assert c + m + k == t;
    assert c / t + m / t + k / t == (c + m + k) / t;
    assert t / t == 1.0;
    var r := Normalized(form);
    assert r[PesoCusto] == Num(c / t) && r[PesoTempo] == Num(m / t) && r[PesoConforto] == Num(k / t);
  }

  /** Pressing the button a second time changes nothing more. */
  lemma NormalizedIdempotent(form: FormData)
    requires Complete(form)
    ensures Normalized(Normalized(form)) == Normalized(form)
  {
    var total := WeightTotal(form);
    if total.Some? && total.value > 0.0 {
      NormalizedSumsToOne(form);
      var r := Normalized(form);
      assert r[PesoCusto].n / 1.0 == r[PesoCusto].n;
      assert r[PesoTempo].n / 1.0 == r[PesoTempo].n;
      assert r[PesoConforto].n / 1.0 == r[PesoConforto].n;
      forall f | IsWeight(f)
        ensures Normalized(r)[f] == r[f]
      {
      }
      assert Normalized(r) == r;
    }
  }

  // ---------------------------------------------------------------------------
  // The return date

  /**
    `getMinReturnDate`: today when no departure date is chosen, otherwise the larger
    of the departure date and today under JavaScript string comparison. `today` is
    what `getToday` reads from the clock.
   */
  function MinReturnDate(dataIda: string, today: string): (r: string)
    ensures r == dataIda || r == today
    ensures dataIda == "" ==> r == today
    ensures !JsString.Less(r, today)
    ensures dataIda != "" ==> !JsString.Less(r, dataIda)
    ensures r == dataIda && r != today ==> JsString.Less(today, dataIda)
  {
    JsString.LessIrreflexive(today);
    JsString.LessIrreflexive(dataIda);
    JsString.LessAsymmetric(today, dataIda);
    if dataIda == "" then today
    else if JsString.Less(today, dataIda) then dataIda
    else today
  }

  /**
    On well-formed dates the string rule is the calendar rule: the minimum return
    date is the later of the departure day and today.
   */
  lemma MinReturnDateIsLaterDay(dataIda: string, today: string)
    requires IsoDate.IsFullDate(dataIda) && IsoDate.IsFullDate(today)
    ensures var r := MinReturnDate(dataIda, today);
      && !IsoDate.Before(IsoDate.Parse(r), IsoDate.Parse(today))
      && !IsoDate.Before(IsoDate.Parse(r), IsoDate.Parse(dataIda))
      && (IsoDate.Before(IsoDate.Parse(today), IsoDate.Parse(dataIda)) ==> r == dataIda)
  {
    var r := MinReturnDate(dataIda, today);
    assert dataIda != "";
    IsoDate.LessIsChronological(r, today);
    IsoDate.LessIsChronological(r, dataIda);
    IsoDate.LessIsChronological(today, dataIda);
  }

  /**
    The string rule misorders a year of five digits: `"20000-01-01" > "2026-10-18"`
    is false, so a departure in the year 20000, which a date input accepts, gives
    a minimum return date of today, before the departure day.
   */
  lemma MinReturnDateFiveDigitYear()
    ensures IsoDate.IsDateValue("20000-01-01") && IsoDate.IsDateValue("2026-10-18")
    ensures !IsoDate.IsFullDate("20000-01-01")
    ensures IsoDate.Before(IsoDate.ParseValue("2026-10-18"), IsoDate.ParseValue("20000-01-01"))
    ensures MinReturnDate("20000-01-01", "2026-10-18") == "2026-10-18"
    ensures MinReturnDateByDay("20000-01-01", "2026-10-18") == "20000-01-01"
  {
    FiveDigitDeparture();
    SampleToday();
    assert JsString.Less("20000-01-01", "2026-10-18");
  }

  lemma FiveDigitDeparture()
    ensures IsoDate.IsDateValue("20000-01-01") && !IsoDate.IsFullDate("20000-01-01")
    ensures IsoDate.ParseValue("20000-01-01") == IsoDate.Date(20000, 1, 1)
  {
    var ida := "20000-01-01";
    assert ida[..5] == "20000" && ida[6..8] == "01" && ida[9..] == "01";
    FiveDigitDepartureFields();
  }

  lemma FiveDigitDepartureFields()
    ensures IsoDate.AllDigits("20000") && IsoDate.Value("20000") == 20000
    ensures IsoDate.AllDigits("01") && IsoDate.Value("01") == 1
  {
    assert IsoDate.Value("0") == 0;
    assert IsoDate.Value("00") == 0;
    assert IsoDate.Value("000") == 0;
    assert IsoDate.Value("0000") == 0;
    assert IsoDate.Value("20000") == 20000;
    assert IsoDate.Value("1") == 1;
    assert IsoDate.Value("01") == 1;
  }

  lemma SampleToday()
    ensures IsoDate.IsDateValue("2026-10-18")
    ensures IsoDate.ParseValue("2026-10-18") == IsoDate.Date(2026, 10, 18)
  {
    var today := "2026-10-18";
    assert today[..4] == "2026" && today[5..7] == "10" && today[8..] == "18";
    SampleTodayFields();
  }

  lemma SampleTodayFields()
    ensures IsoDate.AllDigits("2026") && IsoDate.Value("2026") == 2026
    ensures IsoDate.AllDigits("10") && IsoDate.Value("10") == 10
    ensures IsoDate.AllDigits("18") && IsoDate.Value("18") == 18
  {
    assert IsoDate.Value("6") == 6;
    assert IsoDate.Value("26") == 26;
    assert IsoDate.Value("026") == 26;
    assert IsoDate.Value("2026") == 2026;
    assert IsoDate.Value("0") == 0;
    assert IsoDate.Value("10") == 10;
    assert IsoDate.Value("8") == 8;
    assert IsoDate.Value("18") == 18;
  }

  /**
    The rule the page states, "the departure date or today, whichever is later",
    with the two dates compared as calendar days. Inputs that are not both date
    values keep the string comparison.
   */
  function MinReturnDateByDay(dataIda: string, today: string): (r: string)
    ensures r == dataIda || r == today
    ensures dataIda == "" ==> r == today
    ensures IsoDate.IsDateValue(dataIda) && IsoDate.IsDateValue(today) ==>
      && !IsoDate.Before(IsoDate.ParseValue(r), IsoDate.ParseValue(today))
      && !IsoDate.Before(IsoDate.ParseValue(r), IsoDate.ParseValue(dataIda))
      && (r == dataIda <==> IsoDate.Before(IsoDate.ParseValue(today), IsoDate.ParseValue(dataIda)) || dataIda == today)
  {
    if IsoDate.IsDateValue(dataIda) && IsoDate.IsDateValue(today) then
      if IsoDate.Before(IsoDate.ParseValue(today), IsoDate.ParseValue(dataIda)) then dataIda else today
    else MinReturnDate(dataIda, today)
  }

  /** On dates with four-digit years the string rule and the calendar rule agree. */
  lemma MinReturnDateByDayAgrees(dataIda: string, today: string)
    requires IsoDate.IsFullDate(dataIda) && IsoDate.IsFullDate(today)
    ensures MinReturnDateByDay(dataIda, today) == MinReturnDate(dataIda, today)
  {
    if IsoDate.Parse(dataIda).year > 0 && IsoDate.Parse(today).year > 0 {
      IsoDate.FullDateIsDateValue(dataIda);
      IsoDate.FullDateIsDateValue(today);
      IsoDate.LessIsChronological(today, dataIda);
    } else {
      if IsoDate.Parse(dataIda).year == 0 {
        assert dataIda[..|dataIda| - 6] == dataIda[0..4];
      } else {
        assert today[..|today| - 6] == today[0..4];
      }
    }
  }

  // ---------------------------------------------------------------------------
  // The page state

  /** The page's `formData` state and the handlers that replace it through `setFormData`. */
  class TravelForm {
    var formData: FormData

    ghost predicate Valid()
      reads this
    {
      Complete(formData)
    }

    constructor ()
      ensures Valid()
      ensures formData == InitialFormData()
    {
      formData := InitialFormData();
    }

    /** `handleInputChange(field)(event)`: the field gets `event.target.value`. */
    method HandleInputChange(field: Field, targetValue: JsValue)
      requires Valid()
      modifies this
      ensures Valid()
      ensures formData == Assign(old(formData), field, targetValue)
      ensures forall f :: f != field ==> formData[f] == old(formData)[f]
    {
      formData := Assign(formData, field, targetValue);
    }

    /** `handleSwitchChange(field)(event)`: the field gets `event.target.checked`. */
    method HandleSwitchChange(field: Field, checked: bool)
      requires Valid()
      modifies this
      ensures Valid()
      ensures formData == Assign(old(formData), field, Bool(checked))
      ensures forall f :: f != field ==> formData[f] == old(formData)[f]
    {
      formData := Assign(formData, field, Bool(checked));
    }

    /** `handleSliderChange(field)(event, value)`: the field gets the slider's value. */
    method HandleSliderChange(field: Field, value: SliderValue)
      requires Valid()
      modifies this
      ensures Valid()
      ensures formData == Assign(old(formData), field, SliderJs(value))
      ensures forall f :: f != field ==> formData[f] == old(formData)[f]
    {
      formData := Assign(formData, field, SliderJs(value));
    }

    /** The "Por nível" / "Valor diário" buttons: set `tipo_custo_alimentacao`. */
    method SelectFoodCostType(t: FoodCostType)
      requires Valid()
      modifies this
      ensures Valid()
      ensures formData == Assign(old(formData), TipoCustoAlimentacao, FoodCostTypeJs(t))
      ensures forall f :: f != TipoCustoAlimentacao ==> formData[f] == old(formData)[f]
    {
      formData := Assign(formData, TipoCustoAlimentacao, FoodCostTypeJs(t));
    }

    /** `normalizarPesos`. */
    method NormalizarPesos()
      requires Valid()
      modifies this
      ensures Valid()
      ensures formData == Normalized(old(formData))
      ensures forall f :: !IsWeight(f) ==> formData[f] == old(formData)[f]
    {
      var total := WeightTotal(formData);
      if total.Some? && total.value > 0.0 {
        var t := total.value;
        formData := formData[PesoCusto := Num(formData[PesoCusto].n / t)]
                            [PesoTempo := Num(formData[PesoTempo].n / t)]
                            [PesoConforto := Num(formData[PesoConforto].n / t)];
      }
    }
  }
}
