/**
 * handlers.py: the bot's commands. The /rota conversation walks through four
 * states (date, route name, car, island delivery), keeps the answers in the
 * chat's `user_data` dictionary, stores the route in the ledger at the end and
 * always forgets the answers when it ends. The listing commands build one
 * message line by line; /todas splits a long listing into 4000-character
 * parts.
 *
 * `datetime.strptime(s, "%d/%m/%Y")` and `int(s)` are library parsers whose
 * verdicts are taken as the parameters `validDate` and `asInt`; today's date
 * (`datetime.now()`) is the parameter `today`.
 */
module Handlers {
  import opened Common
  import opened PyText
  import opened Ledger

  // ---------------------------------------------------------------------------
  // The /rota conversation

  /** `DATA, ROTA, CARRO, ILHA = range(4)`. */
  const DATA := 0
  const ROTA := 1
  const CARRO := 2
  const ILHA := 3
  /** `ConversationHandler.END`. */
  const END := -1

  /** The date rota_data keeps: today's date for "hoje" (any case, blanks
      around), else the stripped text when it parses as DD/MM/YYYY, else
      nothing. */
  function ParseData(text: string, today: string, validDate: string -> bool): (r: Option<string>)
    ensures r.None? <==> Lower(Strip(text)) != "hoje" && !validDate(Strip(text))
    ensures Lower(Strip(text)) == "hoje" ==> r == Some(today)
    ensures Lower(Strip(text)) != "hoje" && r.Some? ==> r.value == Strip(text) && validDate(r.value)
  {
    var s := Strip(text);
    if Lower(s) == "hoje" then Some(today)
    else if validDate(s) then Some(s)
    else None
  }

  /** A typed date that was kept is kept unchanged when typed again. */
  lemma ParseDataStable(text: string, today: string, validDate: string -> bool)
    requires Lower(Strip(text)) != "hoje"
    requires ParseData(text, today, validDate).Some?
    ensures ParseData(ParseData(text, today, validDate).value, today, validDate)
         == ParseData(text, today, validDate)
  {
    StripIdempotent(text);
  }

  lemma LowerVan()
    ensures Lower("Van") == "van"
  {
    var l := Lower("Van");
    assert l[0] == LowerChar('V') == 'v';
    assert l[1] == LowerChar('a') == 'a';
    assert l[2] == LowerChar('n') == 'n';
  }

  lemma LowerFiorino()
    ensures Lower("Fiorino") == "fiorino"
  {
    var l := Lower("Fiorino");
    assert l[0] == LowerChar('F') == 'f';
    assert l[1] == LowerChar('i') == 'i';
    assert l[2] == LowerChar('o') == 'o';
    assert l[3] == LowerChar('r') == 'r';
    assert l[4] == LowerChar('i') == 'i';
    assert l[5] == LowerChar('n') == 'n';
    assert l[6] == LowerChar('o') == 'o';
  }

  lemma CapitalizeVan()
    ensures Capitalize("van") == "Van"
  {
    var l := Lower("an");
    assert l[0] == LowerChar('a') == 'a';
    assert l[1] == LowerChar('n') == 'n';
    assert l == "an";
    assert UpperChar('v') == 'V';
  }

  lemma CapitalizeFiorino()
    ensures Capitalize("fiorino") == "Fiorino"
  {
    var l := Lower("iorino");
    assert l[0] == LowerChar('i') == 'i';
    assert l[1] == LowerChar('o') == 'o';
    assert l[2] == LowerChar('r') == 'r';
    assert l[3] == LowerChar('i') == 'i';
    assert l[4] == LowerChar('n') == 'n';
    assert l[5] == LowerChar('o') == 'o';
    assert l == "iorino";
    assert UpperChar('f') == 'F';
  }

  lemma CapitalizeAccepted(c: string)
    requires c == "van" || c == "fiorino"
    ensures Capitalize(c) == if c == "van" then "Van" else "Fiorino"
  {
    if c == "van" {
      CapitalizeVan();
    } else {
      CapitalizeFiorino();
    }
  }

  /** `str.capitalize()` on the two accepted words, and `lower()`/`strip()`
      on what it gives. */
  lemma CarroWords()
    ensures Capitalize("van") == "Van" && Capitalize("fiorino") == "Fiorino"
    ensures Lower("Van") == "van" && Lower("Fiorino") == "fiorino"
    ensures Strip("Van") == "Van" && Strip("Fiorino") == "Fiorino"
  {
    assert Capitalize("van") == "Van" by { CapitalizeVan(); }
    assert Capitalize("fiorino") == "Fiorino" by { CapitalizeFiorino(); }
    assert Lower("Van") == "van" by { LowerVan(); }
    assert Lower("Fiorino") == "fiorino" by { LowerFiorino(); }
    assert Strip("Van") == "Van" by { StripWord("Van"); }
    assert Strip("Fiorino") == "Fiorino" by { StripWord("Fiorino"); }
  }

  /** The car an answer names once stripped and lower-cased: "Van" or
      "Fiorino" (what `capitalize()` makes of the two words), nothing for
      any other word. */
  function CarroOf(word: string): (r: Option<string>)
    ensures r.Some? <==> word == "van" || word == "fiorino"
    ensures r.Some? ==> Lower(r.value) == word
    ensures r == Some("Van") <==> word == "van"
    ensures r == Some("Fiorino") <==> word == "fiorino"
  {
    LowerVan();
    LowerFiorino();
    assert |"Van"| != |"Fiorino"| && |"van"| != |"fiorino"|;
    if word == "van" then Some("Van")
    else if word == "fiorino" then Some("Fiorino")
    else None
  }

  /** The car rota_carro keeps: "Van" or "Fiorino" for those two words in
      any case with blanks around, nothing for any other answer. */
  function ParseCarro(text: string): (r: Option<string>)
    ensures r.Some? <==> Lower(Strip(text)) == "van" || Lower(Strip(text)) == "fiorino"
    ensures r.Some? ==> Lower(r.value) == Lower(Strip(text))
    ensures r == Some("Van") <==> Lower(Strip(text)) == "van"
    ensures r == Some("Fiorino") <==> Lower(Strip(text)) == "fiorino"
  {
    CarroOf(Lower(Strip(text)))
  }

  /** The stored car answers itself: typing it again keeps the same car. */
  lemma ParseCarroStable(text: string)
    requires ParseCarro(text).Some?
    ensures ParseCarro(ParseCarro(text).value) == ParseCarro(text)
  {
    ParseVan();
    ParseFiorino();
  }

  /** A car as stored reads back as itself. */
  lemma ParseVan()
    ensures ParseCarro("Van") == Some("Van")
  {
    StripWord("Van");
    LowerVan();
    assert Lower(Strip("Van")) == "van";
  }

  lemma ParseFiorino()
    ensures ParseCarro("Fiorino") == Some("Fiorino")
  {
    StripWord("Fiorino");
    LowerFiorino();
    assert Lower(Strip("Fiorino")) == "fiorino";
  }

  /** The fee of a route whose car went through rota_carro: 130 for a van,
      110 for a Fiorino, 10 more with an island delivery. */
  lemma FeeOfAnswer(text: string, ilha: bool)
    requires ParseCarro(text).Some?
    ensures Fee(ParseCarro(text).value, ilha)
         == (if Lower(Strip(text)) == "van" then 130 else 110) + (if ilha then 10 else 0)
  {
  }

  /** The island answer rota_ilha accepts: sim/não/nao/s/n after strip and
      lower-casing; an island delivery exactly for "sim" and "s". */
  function ParseIlha(text: string): (r: Option<bool>)
    ensures var a := Lower(Strip(text));
      && (r.Some? <==> a == "sim" || a == "não" || a == "nao" || a == "s" || a == "n")
      && (r == Some(true) <==> a == "sim" || a == "s")
  {
    var a := Lower(Strip(text));
    if a == "sim" || a == "não" || a == "nao" || a == "s" || a == "n" then Some(a == "sim" || a == "s")
    else None
  }

  /** Whether `user_data` holds the three answers rota_ilha reads. */
  predicate Ready(userData: map<string, string>)
  {
    "data" in userData && "rota" in userData && "carro" in userData
  }

  /** `valor_final` as rota_ilha computes it for the confirmation message. */
  function ShownFee(carro: string, ilha: bool): (v: int)
  {
    (if Lower(carro) == "van" then 130 else 110) + (if ilha then 10 else 0)
  }

  /** The fee shown to the user is the fee insert_rota stores. */
  lemma ShownFeeIsStored(data: string, rota: string, carro: string, ilha: bool)
    ensures ShownFee(carro, ilha) == Stored(data, rota, carro, ilha).valor
  {
  }

  /** One chat's `context.user_data`. */
  class Chat {
    var userData: map<string, string>

    constructor ()
      ensures userData == map[]
    {
      userData := map[];
    }

    /** rota_start: the conversation opens in DATA. */
    method RotaStart() returns (state: int)
      ensures state == DATA
    {
      state := DATA;
    }

    /** rota_data: a kept date is stored under 'data' and the conversation
        moves on to ROTA; any other answer stays in DATA with nothing
        changed. */
    method RotaData(text: string, today: string, validDate: string -> bool) returns (state: int)
      modifies this
      ensures ParseData(text, today, validDate).None? ==> state == DATA && userData == old(userData)
      ensures ParseData(text, today, validDate).Some? ==>
        state == ROTA && userData == old(userData)["data" := ParseData(text, today, validDate).value]
    {
      var dataInput := Strip(text);
      var data;
      if Lower(dataInput) == "hoje" {
        data := today;
      } else if validDate(dataInput) {
        data := dataInput;
      } else {
        return DATA;
      }
      userData := userData["data" := data];
      state := ROTA;
    }

    /** rota_nome: any text is a route name; it is stored stripped. */
    method RotaNome(text: string) returns (state: int)
      modifies this
      ensures state == CARRO && userData == old(userData)["rota" := Strip(text)]
    {
      userData := userData["rota" := Strip(text)];
      state := CARRO;
    }

    /** rota_carro: only a van or a Fiorino moves on to ILHA. */
    method RotaCarro(text: string) returns (state: int)
      modifies this
      ensures ParseCarro(text).None? ==> state == CARRO && userData == old(userData)
      ensures ParseCarro(text).Some? ==>
        state == ILHA && userData == old(userData)["carro" := ParseCarro(text).value]
    {
      var carro := Lower(Strip(text));
      if carro != "van" && carro != "fiorino" {
        return CARRO;
      }
      var capitalized := Capitalize(carro);
      CapitalizeAccepted(carro);
      userData := userData["carro" := capitalized];
      state := ILHA;
    }

    /** rota_ilha: an invalid answer stays in ILHA with nothing changed. A
        valid one stores the route (unless an answer is missing or the
        database fails, `dbFails`), shows its id and fee, and in every case
        empties `user_data` and ends the conversation. */
    method RotaIlha(text: string, table: RouteTable, dbFails: bool) returns (state: int, shown: Option<(int, int)>)
      requires table.Valid()
      modifies this, table
      ensures table.Valid()
      ensures ParseIlha(text).None? ==>
        state == ILHA && shown.None? && userData == old(userData)
        && table.rows == old(table.rows) && table.lastId == old(table.lastId)
      ensures ParseIlha(text).Some? ==> state == END && userData == map[]
      ensures ParseIlha(text).Some? && Ready(old(userData)) && !dbFails ==>
        var ud := old(userData);
        var id := old(table.lastId) + 1;
        && id in table.rows && shown == Some((id, table.rows[id].valor))
        && table.rows == old(table.rows)[id := Stored(ud["data"], ud["rota"], ud["carro"], ParseIlha(text).value)]
        && table.lastId == id
      ensures ParseIlha(text).Some? && (!Ready(old(userData)) || dbFails) ==>
        shown.None? && table.rows == old(table.rows) && table.lastId == old(table.lastId)
    {
      var ilhaInput := Lower(Strip(text));
      if !(ilhaInput == "sim" || ilhaInput == "não" || ilhaInput == "nao" || ilhaInput == "s" || ilhaInput == "n") {
        return ILHA, None;
      }
      var ilha := ilhaInput == "sim" || ilhaInput == "s";
      shown := None;
      if Ready(userData) && !dbFails {
        var rotaId := table.InsertRota(userData["data"], userData["rota"], userData["carro"], ilha);
        var valorFinal := ShownFee(userData["carro"], ilha);
        ShownFeeIsStored(userData["data"], userData["rota"], userData["carro"], ilha);
        shown := Some((rotaId, valorFinal));
      }
      userData := map[];
      state := END;
    }

    /** rota_cancel: forgets the answers and ends the conversation. */
    method RotaCancel() returns (state: int)
      modifies this
      ensures state == END && userData == map[]
    {
      userData := map[];
      state := END;
    }
  }

  // ---------------------------------------------------------------------------
  // Listings

  /** The three listing layouts: /espelho (date, route, car, island, fee),
      /hoje (without the date) and /todas (with the id at the end). */
  datatype Layout = PeriodLayout | TodayLayout | AllLayout

  /** `str(n)` for any integer. */
  function IntText(n: int): string
  {
    if n < 0 then "-" + NatToString(-n) else NatToString(n)
  }

  /** `f"{v:.2f}"` for a whole amount. */
  function Money(v: int): string
  {
    IntText(v) + ".00"
  }

  function IlhaText(ilha: bool): string
  {
    if ilha then "Ilha" else "Sem ilha"
  }

  /** The line one route adds to a listing. */
  function Line(layout: Layout, r: Route): string
  {
    var tail := r.rota + " | " + r.carro + " | " + IlhaText(r.ilha) + " | R$ " + Money(r.valor);
    match layout
    case PeriodLayout => "• " + r.data + " | " + tail + "\n"
    case TodayLayout => "• " + tail + "\n"
    case AllLayout => "• " + r.data + " | " + tail + " (ID: " + IntText(r.id) + ")\n"
  }

  /** The lines of a listing, in the order of the routes. */
  function Lines(layout: Layout, rotas: seq<Route>): (r: string)
  {
    if rotas == [] then [] else Lines(layout, rotas[..|rotas| - 1]) + Line(layout, rotas[|rotas| - 1])
  }

  /** Every route's line sits in the listing right after the lines of the
      routes before it. */
  lemma {:induction false} LinesPosition(layout: Layout, rotas: seq<Route>, k: nat)
    requires k < |rotas|
    ensures Lines(layout, rotas[..k]) + Line(layout, rotas[k]) <= Lines(layout, rotas)
    decreases |rotas|
  {
    var init := rotas[..|rotas| - 1];
    assert Lines(layout, rotas) == Lines(layout, init) + Line(layout, rotas[|rotas| - 1]);
    if k == |rotas| - 1 {
      assert rotas[..k] == init;
    } else {
      LinesPosition(layout, init, k);
      InitPrefix(rotas, k);
      PrefixExtend(Lines(layout, rotas[..k]) + Line(layout, rotas[k]), Lines(layout, init), Line(layout, rotas[|rotas| - 1]));
    }
  }

  lemma InitPrefix<T>(s: seq<T>, k: nat)
    requires k < |s| - 1
    ensures s[..|s| - 1][..k] == s[..k] && s[..|s| - 1][k] == s[k]
  {
  }

  lemma PrefixExtend<T>(p: seq<T>, a: seq<T>, b: seq<T>)
    requires p <= a
    ensures p <= a + b
  {
    assert (a + b)[..|p|] == a[..|p|];
  }

  lemma LinesSnoc(header: string, layout: Layout, rotas: seq<Route>, i: nat, message: string)
    requires i < |rotas|
    requires message == header + Lines(layout, rotas[..i])
    ensures message + Line(layout, rotas[i]) == header + Lines(layout, rotas[..i + 1])
  {
    assert rotas[..i + 1][..i] == rotas[..i];
    assert rotas[..i + 1][i] == rotas[i];
    Assoc(header, Lines(layout, rotas[..i]), Line(layout, rotas[i]));
  }

  /** The `for rota in rotas: message += ...` loops. */
  method BuildListing(header: string, layout: Layout, rotas: seq<Route>) returns (message: string)
    ensures message == header + Lines(layout, rotas)
  {
    message := header;
    for i := 0 to |rotas|
      invariant message == header + Lines(layout, rotas[..i])
    {
      LinesSnoc(header, layout, rotas, i, message);
      message := message + Line(layout, rotas[i]);
    }
    assert rotas[..|rotas|] == rotas;
  }

  /** The longest message /todas sends in one piece. */
  const ChunkSize := 4000

  /** `[message[i:i+4000] for i in range(0, len(message), 4000)]`. */
  function Chunks(message: string): seq<string>
    decreases |message|
  {
    if message == [] then []
    else if |message| <= ChunkSize then [message]
    else [message[..ChunkSize]] + Chunks(message[ChunkSize..])
  }

  /** The parts put back together give the message; no part is empty or
      longer than 4000 characters, every part but the last has exactly
      4000, and there are ⌈len/4000⌉ parts. */
  lemma {:induction false} ChunksFacts(message: string)
    ensures var parts := Chunks(message);
      && Concat(parts) == message
      && (forall k :: 0 <= k < |parts| ==> 0 < |parts[k]| <= ChunkSize)
      && (forall k :: 0 <= k < |parts| - 1 ==> |parts[k]| == ChunkSize)
      && |parts| == (|message| + ChunkSize - 1) / ChunkSize
    decreases |message|
  {
    if |message| > ChunkSize {
      var rest := message[ChunkSize..];
      ChunksFacts(rest);
      ConcatCons(message[..ChunkSize], Chunks(rest));
      assert message[..ChunkSize] + rest == message;
      var parts := Chunks(message);
      assert parts == [message[..ChunkSize]] + Chunks(rest);
      forall k | 0 < k < |parts| ensures parts[k] == Chunks(rest)[k - 1] {
      }
    } else if message != [] {
      assert Concat([message]) == Concat([]) + message;
    }
  }

  /** What /todas sends for a listing: the parts when it is longer than 4000
      characters, the whole listing otherwise. */
  function TodasReplies(message: string): seq<string>
  {
    if |message| > ChunkSize then Chunks(message) else [message]
  }

  /** Whatever its length, the listing reaches the chat whole and in order,
      in parts of at most 4000 characters. */
  lemma TodasRepliesFacts(message: string)
    ensures var parts := TodasReplies(message);
      && Concat(parts) == message
      && (forall k :: 0 <= k < |parts| ==> |parts[k]| <= ChunkSize)
      && (|message| <= ChunkSize <==> parts == [message])
  {
    if |message| > ChunkSize {
      ChunksFacts(message);
      var parts := Chunks(message);
      assert |parts[0]| == ChunkSize;
    } else {
      assert Concat([message]) == Concat([]) + message;
    }
  }

  // ---------------------------------------------------------------------------
  // The commands

  /** What a command answers in the chat. */
  datatype Reply =
    | Usage                       // wrong number of arguments
    | BadDate                     // an argument is not DD/MM/YYYY
    | BadId                       // the argument of /deletar is not an integer
    | NoRoutes                    // the listing would be empty
    | Sent(messages: seq<string>) // the listing, in one or more messages
    | Removed(id: int)
    | NotFound(id: int)
    | DeleteFailed                // delete_rota raised

  function PeriodHeader(lo: string, hi: string): string
  {
    "\U{1F4C5} Período: " + lo + " até " + hi + "\n\n"
  }

  function PeriodFooter(total: int): string
  {
    "\n\U{1F4B0} Total no período: R$ " + Money(total)
  }

  function TodayHeader(today: string): string
  {
    "\U{1F4C5} Rotas de hoje (" + today + ")\n\n"
  }

  function TodayFooter(total: int): string
  {
    "\n\U{1F4B0} Total hoje: R$ " + Money(total)
  }

  const AllHeader := "\U{1F4CB} Todas as Rotas\n\n"

  /** espelho_command: exactly two arguments, both DD/MM/YYYY; then the
      period's routes ascending by date and id with the period total, or the
      empty-period answer when no row lies in the period. */
  method Espelho(table: RouteTable, args: seq<string>, validDate: string -> bool) returns (reply: Reply)
    requires table.Valid()
    ensures |args| != 2 ==> reply == Usage
    ensures |args| == 2 && !(validDate(args[0]) && validDate(args[1])) ==> reply == BadDate
    ensures |args| == 2 && validDate(args[0]) && validDate(args[1]) ==>
      var rotas := ReadAll(Select(table.rows, table.lastId, Between(args[0], args[1])));
      && (reply == NoRoutes <==> Matching(table.rows, Between(args[0], args[1])) == {})
      && (reply != NoRoutes ==>
            reply == Sent([PeriodHeader(args[0], args[1]) + Lines(PeriodLayout, rotas)
                           + PeriodFooter(PeriodTotal(table.rows, table.lastId, args[0], args[1]))]))
  {
    if |args| != 2 {
      return Usage;
    }
    var dataInicial, dataFinal := args[0], args[1];
    if !validDate(dataInicial) || !validDate(dataFinal) {
      return BadDate;
    }
    var rotas := table.RotasPorPeriodo(dataInicial, dataFinal);
    var total := table.TotalPeriodo(dataInicial, dataFinal);
    if rotas == [] {
      return NoRoutes;
    }
    assert rotas[0].id in RouteIds(rotas);
    var message := BuildListing(PeriodHeader(dataInicial, dataFinal), PeriodLayout, rotas);
    message := message + PeriodFooter(total);
    reply := Sent([message]);
  }

  /** hoje_command: today's routes in id order with today's total, or the
      empty answer when no row carries today's date. */
  method Hoje(table: RouteTable, today: string) returns (reply: Reply)
    requires table.Valid()
    ensures var rotas := ReadAll(Select(table.rows, table.lastId, Between(today, today)));
      && (reply == NoRoutes <==> forall id :: id in table.rows ==> table.rows[id].data != today)
      && (reply != NoRoutes ==>
            reply == Sent([TodayHeader(today) + Lines(TodayLayout, rotas)
                           + TodayFooter(PeriodTotal(table.rows, table.lastId, today, today))]))
  {
    var rotas := table.RotasHoje(today);
    var total := table.TotalHoje(today);
    if rotas == [] {
      assert RouteIds(rotas) == {};
      forall id | id in table.rows ensures table.rows[id].data != today {
        assert id !in RouteIds(rotas);
      }
      return NoRoutes;
    }
    assert rotas[0].id in RouteIds(rotas);
    var message := BuildListing(TodayHeader(today), TodayLayout, rotas);
    message := message + TodayFooter(total);
    reply := Sent([message]);
  }

  /** todas_command: every route newest first with its id, split into parts
      of 4000 characters when longer than that, or the empty answer for an
      empty table. */
  method Todas(table: RouteTable) returns (reply: Reply)
    requires table.Valid()
    ensures (reply == NoRoutes) <==> table.rows == map[]
    ensures reply != NoRoutes ==>
      reply == Sent(TodasReplies(AllHeader + Lines(AllLayout, Reverse(ReadAll(Select(table.rows, table.lastId, Everything))))))
  {
    var rotas := table.TodasRotas();
    if rotas == [] {
      assert table.rows.Keys == {};
      return NoRoutes;
    }
    assert rotas[0].id in RouteIds(rotas);
    var message := BuildListing(AllHeader, AllLayout, rotas);
    if |message| > ChunkSize {
      var chunks := Chunks(message);
      reply := Sent(chunks);
    } else {
      reply := Sent([message]);
    }
  }

  /** deletar_command: exactly one argument, an integer; then the row with
      that id is removed, and the answer says whether there was one. An
      integer outside 64 bits makes delete_rota raise, and the catch-all
      handler answers with the error. */
  method Deletar(table: RouteTable, args: seq<string>, asInt: string -> Option<int>) returns (reply: Reply)
    requires table.Valid()
    modifies table
    ensures table.Valid()
    ensures |args| != 1 ==> reply == Usage
    ensures |args| == 1 && asInt(args[0]).None? ==> reply == BadId
    ensures |args| != 1 || asInt(args[0]).None? ==>
      table.rows == old(table.rows) && table.lastId == old(table.lastId)
    ensures |args| == 1 && asInt(args[0]).Some? ==>
      var id := asInt(args[0]).value;
      && (reply == DeleteFailed <==> !Int64(id))
      && (reply == Removed(id) <==> Int64(id) && id in old(table.rows))
      && (reply == NotFound(id) <==> Int64(id) && id !in old(table.rows))
      && table.rows == (if Int64(id) then old(table.rows) - {id} else old(table.rows))
      && table.lastId == old(table.lastId)
  {
    if |args| != 1 {
      return Usage;
    }
    var parsed := asInt(args[0]);
    if parsed.None? {
      return BadId;
    }
    var rotaId := parsed.value;
    var outcome := table.DeleteRota(rotaId);
    match outcome {
      case OverflowError =>
        reply := DeleteFailed;
      case Done(removed) =>
        if removed {
          reply := Removed(rotaId);
        } else {
          reply := NotFound(rotaId);
        }
    }
  }
}
