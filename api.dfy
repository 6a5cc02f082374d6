/**
  The client of the remote optimiser (services/api.ts): the shapes of the requests
  and responses, the extra field of the multi-option request, the choice of the
  error message when the server answers with a non-OK status, the single/multiple
  dispatch, and the outbound-then-return sequencing of `optimizeCompleteTrip`.

  Datatype fields keep the wire names of the JSON exchanged with the server.
 */
module Api {
  import opened Wrappers
  import OptimizationBadge

  datatype AvailableDates = AvailableDates(data_minima: string, data_maxima: string, mensagem: string)

  /** The body of a request to `/optimize` and `/optimize-multiple`. */
  datatype TripPayload = TripPayload(
    ida_volta: bool,
    origem: string,
    destino: string,
    locais_visitar: seq<string>,
    data_ida: string,
    numero_adultos: int,
    numero_criancas: int,
    dias_por_cidade: map<string, int>,
    incluir_refeicao: bool,
    incluir_hospedagem: bool,
    incluir_transporte: bool,
    numero_opcoes: Option<int>)

  datatype Voo = Voo(id: string, cia: string, codigo: string, data: string, saida: string,
                     duracao_min: Option<real>, preco: real)
  datatype Trecho = Trecho(origem: string, destino: string, voo: Voo)
  datatype Rota = Rota(origem: string, destino: string, caminho: seq<string>, trechos: seq<Trecho>)
  datatype Custos = Custos(total: real, voos: real, hospedagem: real, alimentacao: real, transporte: real)
  datatype Diarias = Diarias(cidade: string, diarias: real, diaria: real, total: real)
  datatype CustoDiario = CustoDiario(cidade: string, diarias: real, custo_dia: real, total: real)
  datatype Detalhes = Detalhes(hospedagem: seq<Diarias>, alimentacao: seq<CustoDiario>, transporte: seq<CustoDiario>)
  datatype Metadata = Metadata(nivel_otimizacao: OptimizationBadge.Nivel, nota: string, tempo_computacao: real)

  /** One optimised itinerary, as `/optimize` returns it. */
  datatype TravelResult = TravelResult(rota: Rota, custos: Custos, detalhes: Detalhes, metadata: Option<Metadata>)

  datatype Pontuacao = Pontuacao(custo: real, tempo: real, conforto: real, geral: real)

  /** One alternative itinerary of a multi-option answer. */
  datatype OpcaoViagem = OpcaoViagem(
    id: int,
    ranking: int,
    titulo: string,
    descricao: string,
    rota: Rota,
    custos: Custos,
    detalhes: Detalhes,
    custo_total: real,
    tempo_total_viagem: real,
    numero_escalas: int,
    pontuacao: Pontuacao,
    vantagens: seq<string>,
    desvantagens: seq<string>)

  datatype MultipleMetadata = MultipleMetadata(tempo_computacao: real, numero_opcoes_geradas: int,
                                               numero_opcoes_solicitadas: int)
  datatype MultipleOptimizeResponse = MultipleOptimizeResponse(opcoes: seq<OpcaoViagem>, recomendacao: int,
                                                               metadata: MultipleMetadata)

  /** `SearchMode = 'single' | 'multiple'`. */
  datatype SearchMode = Single | Multiple

  /** `TravelResult | MultipleOptimizeResponse`, tagged by the call that produced it. */
  datatype ModeResult = SingleResult(single: TravelResult) | MultipleResult(multiple: MultipleOptimizeResponse)

  /** `{ ida, volta }`: the outbound result and, for a round trip, the return result. */
  datatype CombinedTravelResult = CombinedTravelResult(ida: TravelResult, volta: Option<TravelResult>)

  // ---------------------------------------------------------------------------
  // What the server answers

  /**
    The body of a non-OK response: it did not parse as JSON, or it parsed and its
    `detail` is a string or is missing (`None`).
   */
  datatype ErrorBody = Unparseable | Parsed(detail: Option<string>)

  /**
    How one HTTP call settles: an OK response whose body parsed, a non-OK response,
    or a rejection (the request never got an answer, or an OK body did not parse)
    carrying the message of the error it was rejected with.
   */
  datatype Reply<T> = Fulfilled(body: T) | NotOk(errorBody: ErrorBody) | Rejected(reason: string)

  const UnknownError: string := "Erro desconhecido"
  const OptimizeError: string := "Erro ao otimizar viagem"
  const DatesError: string := "Erro ao buscar datas disponíveis"

  /** JavaScript truthiness of a `detail` that is a string or missing. */
  predicate Truthy(detail: Option<string>)
  {
    detail.Some? && detail.value != ""
  }

  /**
    The message of the error thrown on a non-OK answer to `/optimize` or
    `/optimize-multiple`: an unparseable body is replaced by `{ detail: "Erro
    desconhecido" }`, then `detail || "Erro ao otimizar viagem"` is thrown.
   */
  function ErrorMessage(body: ErrorBody): (m: string)
    ensures body.Unparseable? ==> m == UnknownError
    ensures body.Parsed? && Truthy(body.detail) ==> m == body.detail.value
    ensures body.Parsed? && !Truthy(body.detail) ==> m == OptimizeError
    ensures m != ""
  {
    var detail := if body.Unparseable? then Some(UnknownError) else body.detail;
    if Truthy(detail) then detail.value else OptimizeError
  }

  /** How the promise of `optimizeTrip` / `optimizeTripMultiple` settles for a reply. */
  function SettleOptimize<T>(reply: Reply<T>): (r: Result<T>)
    ensures r.Ok? <==> reply.Fulfilled?
    ensures reply.Fulfilled? ==> r.value == reply.body
    ensures reply.NotOk? ==> r.message == ErrorMessage(reply.errorBody)
    ensures reply.Rejected? ==> r.message == reply.reason
  {
    match reply
    case Fulfilled(body) => Ok(body)
    case NotOk(errorBody) => Err(ErrorMessage(errorBody))
    case Rejected(reason) => Err(reason)
  }

  /** How the promise of `getAvailableDates` settles: any non-OK status gives one fixed message. */
  function SettleDates(reply: Reply<AvailableDates>): (r: Result<AvailableDates>)
    ensures r.Ok? <==> reply.Fulfilled?
    ensures reply.Fulfilled? ==> r.value == reply.body
    ensures reply.NotOk? ==> r.message == DatesError
    ensures reply.Rejected? ==> r.message == reply.reason
  {
    match reply
    case Fulfilled(body) => Ok(body)
    case NotOk(_) => Err(DatesError)
    case Rejected(reason) => Err(reason)
  }

  // ---------------------------------------------------------------------------
  // What is sent

  /** One call to the server, with the body it carried. */
  datatype Request = GetAvailableDates | PostOptimize(payload: TripPayload) | PostOptimizeMultiple(payload: TripPayload)

  /** `{ ...payload, numero_opcoes: 3 }`. */
  function WithOptions(payload: TripPayload): (p: TripPayload)
    ensures p.numero_opcoes == Some(3)
    ensures p.(numero_opcoes := payload.numero_opcoes) == payload
  {
    payload.(numero_opcoes := Some(3))
  }

  /** The call `optimizeTripWithMode` makes for a mode. */
  function Dispatch(payload: TripPayload, mode: SearchMode): (req: Request)
    ensures req.PostOptimize? <==> mode.Single?
    ensures req.PostOptimizeMultiple? <==> mode.Multiple?
    ensures req.PostOptimize? ==> req.payload == payload
    ensures req.PostOptimizeMultiple? ==> req.payload == WithOptions(payload)
  {
    if mode.Single? then PostOptimize(payload) else PostOptimizeMultiple(WithOptions(payload))
  }

  /** Whatever the caller put in `numero_opcoes`, the multi-option request asks for 3 and changes nothing else. */
  lemma WithOptionsOverrides(payload: TripPayload, n: int)
    ensures WithOptions(payload.(numero_opcoes := Some(n))) == WithOptions(payload)
    ensures WithOptions(WithOptions(payload)) == WithOptions(payload)
  {
  }

  /**
    The outcome of `optimizeCompleteTrip` and the calls it leaves in the log, given
    how the server answers the call at each position of the log.
   */
  function CompleteTrip(reply: (nat, TripPayload) -> Reply<TravelResult>, log: seq<Request>,
                        ida: TripPayload, volta: Option<TripPayload>): (r: (Result<CombinedTravelResult>, seq<Request>))
    ensures log <= r.1 && |log| < |r.1| <= |log| + 2
    ensures r.0.Ok? ==> r.1[|r.1| - 1] == PostOptimize(if volta.Some? then volta.value else ida)
  {
    var first := SettleOptimize(reply(|log|, ida));
    var afterIda := log + [PostOptimize(ida)];
    if first.Err? then (Err(first.message), afterIda)
    else if volta.None? then (Ok(CombinedTravelResult(first.value, None)), afterIda)
    else
      var second := SettleOptimize(reply(|afterIda|, volta.value));
      var afterVolta := afterIda + [PostOptimize(volta.value)];
      if second.Err? then (Err(second.message), afterVolta)
      else (Ok(CombinedTravelResult(first.value, Some(second.value))), afterVolta)
  }

  /**
    The outbound call is always made, first; the return call is made, second, exactly
    when there is a return payload and the outbound call succeeded.
   */
  lemma CompleteTripCalls(reply: (nat, TripPayload) -> Reply<TravelResult>, log: seq<Request>,
                          ida: TripPayload, volta: Option<TripPayload>)
    ensures var calls := CompleteTrip(reply, log, ida, volta).1;
      && |calls| > |log| && calls[..|log|] == log && calls[|log|] == PostOptimize(ida)
      && (|calls| == |log| + 2 <==> volta.Some? && reply(|log|, ida).Fulfilled?)
      && (|calls| == |log| + 2 ==> calls[|log| + 1] == PostOptimize(volta.value))
      && |calls| <= |log| + 2
  {
  }

  /**
    A trip succeeds exactly when every call it made succeeded; then `volta` is null
    exactly when there was no return payload, and each half is the server's answer.
   */
  lemma CompleteTripResult(reply: (nat, TripPayload) -> Reply<TravelResult>, log: seq<Request>,
                           ida: TripPayload, volta: Option<TripPayload>)
    ensures var r := CompleteTrip(reply, log, ida, volta).0;
      && (r.Ok? <==> reply(|log|, ida).Fulfilled? && (volta.Some? ==> reply(|log| + 1, volta.value).Fulfilled?))
      && (r.Ok? ==> r.value.ida == reply(|log|, ida).body)
      && (r.Ok? ==> (r.value.volta.None? <==> volta.None?))
      && (r.Ok? && volta.Some? ==> r.value.volta.value == reply(|log| + 1, volta.value).body)
  {
  }

  /** A failed outbound call fails the trip with its own message and no return call is made. */
  lemma CompleteTripOutboundFailure(reply: (nat, TripPayload) -> Reply<TravelResult>, log: seq<Request>,
                                    ida: TripPayload, volta: Option<TripPayload>)
    requires !reply(|log|, ida).Fulfilled?
    ensures CompleteTrip(reply, log, ida, volta) == (Err(SettleOptimize(reply(|log|, ida)).message), log + [PostOptimize(ida)])
  {
  }

  /** A failed return call fails the whole trip with its message: no `{ida, volta: null}` is returned. */
  lemma CompleteTripReturnFailure(reply: (nat, TripPayload) -> Reply<TravelResult>, log: seq<Request>,
                                  ida: TripPayload, volta: TripPayload)
    requires reply(|log|, ida).Fulfilled? && !reply(|log| + 1, volta).Fulfilled?
    ensures CompleteTrip(reply, log, ida, Some(volta)).0 == Err(SettleOptimize(reply(|log| + 1, volta)).message)
  {
  }

  // ---------------------------------------------------------------------------
  // The client

  /**
    The remote server as the client sees it: the answers it gives are fixed by the
    position of each call in the log and by what the call carries, and `log` records
    every call, in order.
   */
  class Backend {
    const optimizeReply: (nat, TripPayload) -> Reply<TravelResult>
    const multipleReply: (nat, TripPayload) -> Reply<MultipleOptimizeResponse>
    const datesReply: nat -> Reply<AvailableDates>
    var log: seq<Request>

    constructor (optimizeReply: (nat, TripPayload) -> Reply<TravelResult>,
                 multipleReply: (nat, TripPayload) -> Reply<MultipleOptimizeResponse>,
                 datesReply: nat -> Reply<AvailableDates>)
      ensures this.optimizeReply == optimizeReply && this.multipleReply == multipleReply
      ensures this.datesReply == datesReply
      ensures log == []
    {
      this.optimizeReply := optimizeReply;
      this.multipleReply := multipleReply;
      this.datesReply := datesReply;
      log := [];
    }

    /** `getAvailableDates()`: GET `/available-dates`. */
    method GetAvailableDatesCall() returns (r: Result<AvailableDates>)
      modifies this`log
      ensures log == old(log) + [GetAvailableDates]
      ensures r == SettleDates(datesReply(|old(log)|))
    {
      var reply := datesReply(|log|);
      log := log + [GetAvailableDates];
      r := SettleDates(reply);
    }

    /** `optimizeTrip(payload)`: POST `/optimize` with the payload as it is. */
    method OptimizeTrip(payload: TripPayload) returns (r: Result<TravelResult>)
      modifies this`log
      ensures log == old(log) + [PostOptimize(payload)]
      ensures r == SettleOptimize(optimizeReply(|old(log)|, payload))
    {
      var reply := optimizeReply(|log|, payload);
      log := log + [PostOptimize(payload)];
      r := SettleOptimize(reply);
    }

    /** `optimizeTripMultiple(payload)`: POST `/optimize-multiple` with `numero_opcoes` set to 3. */
    method OptimizeTripMultiple(payload: TripPayload) returns (r: Result<MultipleOptimizeResponse>)
      modifies this`log
      ensures log == old(log) + [PostOptimizeMultiple(WithOptions(payload))]
      ensures r == SettleOptimize(multipleReply(|old(log)|, WithOptions(payload)))
    {
      var payloadWithOptions := WithOptions(payload);
      var reply := multipleReply(|log|, payloadWithOptions);
      log := log + [PostOptimizeMultiple(payloadWithOptions)];
      r := SettleOptimize(reply);
    }

    /** `optimizeTripWithMode(payload, mode)`: one call, to the endpoint the mode names. */
    method OptimizeTripWithMode(payload: TripPayload, mode: SearchMode) returns (r: Result<ModeResult>)
      modifies this`log
      ensures log == old(log) + [Dispatch(payload, mode)]
      ensures mode == Single ==> var s := SettleOptimize(optimizeReply(|old(log)|, payload));
        r == if s.Ok? then Ok(SingleResult(s.value)) else Err(s.message)
      ensures mode == Multiple ==> var s := SettleOptimize(multipleReply(|old(log)|, WithOptions(payload)));
        r == if s.Ok? then Ok(MultipleResult(s.value)) else Err(s.message)
    {
      if mode == Single {
        var s := OptimizeTrip(payload);
        r := if s.Ok? then Ok(SingleResult(s.value)) else Err(s.message);
      } else {
        var m := OptimizeTripMultiple(payload);
        r := if m.Ok? then Ok(MultipleResult(m.value)) else Err(m.message);
      }
    }

    /**
      `optimizeCompleteTrip(payloadIda, payloadVolta)`: the outbound call, then, when
      there is a return payload, the return call; the first failure is rethrown.
     */
    method OptimizeCompleteTrip(payloadIda: TripPayload, payloadVolta: Option<TripPayload>)
      returns (r: Result<CombinedTravelResult>)
      modifies this`log
      ensures (r, log) == CompleteTrip(optimizeReply, old(log), payloadIda, payloadVolta)
    {
      var resultadoIda := OptimizeTrip(payloadIda);
      if resultadoIda.Err? {
        return Err(resultadoIda.message);
      }
      var resultadoVolta: Option<TravelResult> := None;
      if payloadVolta.Some? {
        var volta := OptimizeTrip(payloadVolta.value);
        if volta.Err? {
          return Err(volta.message);
        }
        resultadoVolta := Some(volta.value);
      }
      r := Ok(CombinedTravelResult(resultadoIda.value, resultadoVolta));
    }
  }
}
