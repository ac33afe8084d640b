/**
 * The classify-and-branch graph: the node `classificar` labels a question by
 * scanning an ordered keyword table, a conditional edge maps the label to one
 * of three answering nodes, and each of those is a finish point.
 */
module KeywordRouter {
  import opened Text
  import opened Wrappers

  /** The graph's state record: the question, the answer and the category label. */
  datatype State = State(input: string, output: string, tipo: string)

  const Calculo: string := "calculo"
  const Curiosidade: string := "curiosidade"
  /** The label `classificar` starts from and keeps when no keyword matches. */
  const Desconhecido: string := "desconhecido"

  const CalcKeywords: seq<string> := ["soma", "quanto é", "+", "calcular"]
  const CurioKeywords: seq<string> := ["quem é", "o que é", "curiosidade", "fato"]

  /** The keyword dictionary, as its entries come out of `items()` (insertion order). */
  const Keywords: seq<(string, seq<string>)> := [(Calculo, CalcKeywords), (Curiosidade, CurioKeywords)]

  /** `any(p in s for p in words)`. */
  function AnyKeyword(s: string, words: seq<string>): (r: bool)
    ensures r <==> exists k :: 0 <= k < |words| && Contains(s, words[k])
  {
    if words == [] then false
    else
      var rest := AnyKeyword(s, words[1..]);
      assert rest ==> exists k :: 0 <= k < |words| && Contains(s, words[k]) by {
        if rest {
          var k :| 0 <= k < |words[1..]| && Contains(s, words[1..][k]);
          assert words[k + 1] == words[1..][k];
        }
      }
      assert (exists k :: 0 <= k < |words| && Contains(s, words[k])) ==> Contains(s, words[0]) || rest by {
        if exists k :: 0 <= k < |words| && Contains(s, words[k]) {
          var k :| 0 <= k < |words| && Contains(s, words[k]);
          if k > 0 {
            assert words[1..][k - 1] == words[k];
          }
        }
      }
      Contains(s, words[0]) || rest
  }

  /** Entry `j` of `table` is the first whose keyword list has a keyword in `s`. */
  predicate FirstMatchAt(table: seq<(string, seq<string>)>, s: string, j: int)
  {
    0 <= j < |table| && AnyKeyword(s, table[j].1) && forall k :: 0 <= k < j ==> !AnyKeyword(s, table[k].1)
  }

  /** The label the loop of `classificar` settles on: the category of the first matching entry, else the fallback. */
  function FirstMatch(table: seq<(string, seq<string>)>, s: string): (r: string)
    ensures forall j :: FirstMatchAt(table, s, j) ==> r == table[j].0
    ensures (forall j :: 0 <= j < |table| ==> !AnyKeyword(s, table[j].1)) ==> r == Desconhecido
    ensures r == Desconhecido || exists j :: FirstMatchAt(table, s, j)
  {
    if table == [] then Desconhecido
    else if AnyKeyword(s, table[0].1) then (assert FirstMatchAt(table, s, 0); table[0].0)
    else
      var r := FirstMatch(table[1..], s);
      assert forall j :: FirstMatchAt(table, s, j) ==> j > 0 && FirstMatchAt(table[1..], s, j - 1);
      assert forall j :: FirstMatchAt(table[1..], s, j) ==> FirstMatchAt(table, s, j + 1) by {
        forall j | FirstMatchAt(table[1..], s, j) ensures FirstMatchAt(table, s, j + 1) {
          forall k | 0 <= k < j + 1 ensures !AnyKeyword(s, table[k].1) {
            if k > 0 {
              assert table[k] == table[1..][k - 1];
            }
          }
        }
      }
      assert (forall j :: 0 <= j < |table| ==> !AnyKeyword(s, table[j].1)) ==>
             forall j :: 0 <= j < |table[1..]| ==> !AnyKeyword(s, table[1..][j].1) by {
        if forall j :: 0 <= j < |table| ==> !AnyKeyword(s, table[j].1) {
          forall j | 0 <= j < |table[1..]| ensures !AnyKeyword(s, table[1..][j].1) {
            assert table[1..][j] == table[j + 1];
          }
        }
      }
      r
  }

  /**
   * The label `classificar` assigns to a question: the first match over the
   * lower-cased question. Every question gets one of the three labels, and
   * only those.
   */
  function Classification(input: string): (r: string)
    ensures r in {Calculo, Curiosidade, Desconhecido}
  {
    var s := Lower(input);
    assert FirstMatch(Keywords, s) != Desconhecido ==> FirstMatch(Keywords, s) in {Calculo, Curiosidade} by {
      if FirstMatch(Keywords, s) != Desconhecido {
        var j :| FirstMatchAt(Keywords, s, j);
        assert Keywords[j].0 in {Calculo, Curiosidade};
      }
    }
    FirstMatch(Keywords, s)
  }

  /**
   * The node `classificar`: lower-cases the question, walks the keyword table
   * in order and stops at the first category with a matching keyword. The new
   * state keeps the question and the answer and only sets the label.
   */
  method Classificar(state: State) returns (r: State)
    ensures r == State(state.input, state.output, Classification(state.input))
  {
    var pergunta := Lower(state.input);
    var tipo := Desconhecido;
    var i := 0;
    while i < |Keywords|
      invariant 0 <= i <= |Keywords|
      invariant FirstMatch(Keywords, pergunta) == FirstMatch(Keywords[i..], pergunta)
    {
      if AnyKeyword(pergunta, Keywords[i].1) {
        tipo := Keywords[i].0;
        assert FirstMatchAt(Keywords[i..], pergunta, 0);
        break;
      }
      assert Keywords[i..][1..] == Keywords[i + 1..];
      i := i + 1;
    }
    r := State(state.input, state.output, tipo);
  }

  /** A calculation keyword in the lower-cased question decides "calculo", whatever else the question holds. */
  lemma CalcHasPriority(input: string)
    ensures Classification(input) == Calculo <==> AnyKeyword(Lower(input), CalcKeywords)
  {
    var s := Lower(input);
    if AnyKeyword(s, CalcKeywords) {
      assert FirstMatchAt(Keywords, s, 0);
    } else if Classification(input) != Desconhecido {
      var j :| FirstMatchAt(Keywords, s, j);
      assert j == 1;
    }
  }

  /** "curiosidade" exactly when no calculation keyword and some curiosity keyword occurs. */
  lemma CuriosityExactly(input: string)
    ensures Classification(input) == Curiosidade <==>
            !AnyKeyword(Lower(input), CalcKeywords) && AnyKeyword(Lower(input), CurioKeywords)
  {
    var s := Lower(input);
    CalcHasPriority(input);
    if !AnyKeyword(s, CalcKeywords) && AnyKeyword(s, CurioKeywords) {
      assert FirstMatchAt(Keywords, s, 1);
    }
  }

  /** "desconhecido" exactly when no keyword of either list occurs in the lower-cased question. */
  lemma UnknownExactly(input: string)
    ensures Classification(input) == Desconhecido <==>
            !AnyKeyword(Lower(input), CalcKeywords) && !AnyKeyword(Lower(input), CurioKeywords)
  {
    CalcHasPriority(input);
    CuriosityExactly(input);
  }

  /** The label depends on the question only through its lower-cased form. */
  lemma ClassificationIgnoresCase(a: string, b: string)
    requires Lower(a) == Lower(b)
    ensures Classification(a) == Classification(b)
    ensures Classification(a) == Classification(Lower(a))
  {
    LowerIdempotent(a);
  }

  // Facts about particular lower-cased questions, one keyword list at a time.

  lemma FatorialKeywords()
    ensures !AnyKeyword("qual o fatorial de 5?", CalcKeywords)
    ensures AnyKeyword("qual o fatorial de 5?", CurioKeywords)
  {
    var s := "qual o fatorial de 5?";
    assert 's' !in s && 'é' !in s && '+' !in s && 'c' !in s;
    MissingCharExcludes(s, "soma", 0);
    MissingCharExcludes(s, "quanto é", 7);
    MissingCharExcludes(s, "+", 0);
    MissingCharExcludes(s, "calcular", 0);
    assert OccursAt(s, "fato", 7);
    assert Contains(s, CurioKeywords[3]);
  }

  lemma SomarKeywords()
    ensures AnyKeyword("pode somar 3 e 4?", CalcKeywords)
  {
    assert OccursAt("pode somar 3 e 4?", "soma", 5);
    assert Contains("pode somar 3 e 4?", CalcKeywords[0]);
  }

  /** Keywords match as substrings, not whole words: "fatorial" holds "fato". */
  lemma FatorialHoldsFato()
    ensures Classification("Qual o fatorial de 5?") == Curiosidade
  {
    assert Lower("Qual o fatorial de 5?") == "qual o fatorial de 5?";
    FatorialKeywords();
    CuriosityExactly("Qual o fatorial de 5?");
  }

  /** Keywords match as substrings, not whole words: "somar" holds "soma". */
  lemma SomarHoldsSoma()
    ensures Classification("Pode somar 3 e 4?") == Calculo
  {
    assert Lower("Pode somar 3 e 4?") == "pode somar 3 e 4?";
    SomarKeywords();
    CalcHasPriority("Pode somar 3 e 4?");
  }

  // ---------------------------------------------------------------------
  // The answering nodes and the declared graph.
  // ---------------------------------------------------------------------

  /** The fixed answer of `realizar_calculo` (spelling as in the program). */
  const CalcAnswer: string := "Resposta de cáclulo ficticio 42"
  /** The fixed answer of `responder_erro`. */
  const ErrorAnswer: string := "Desculpe, não consegui entender sua pergunta."

  /** The node `realizar_calculo`: keeps the question, answers with the fixed string, label back to its default. */
  function RealizarCalculo(state: State): (r: State)
    ensures r.input == state.input && r.output == CalcAnswer && r.tipo == ""
  {
    State(state.input, CalcAnswer, "")
  }

  /** The node `responder_curiosidades`: the answer is whatever the language model replies to the question. */
  function ResponderCuriosidades(state: State, llm: string -> string): (r: State)
    ensures r.input == state.input && r.output == llm(state.input) && r.tipo == ""
  {
    State(state.input, llm(state.input), "")
  }

  /** The node `responder_erro`: keeps the question, answers with the fixed apology. */
  function ResponderErro(state: State): (r: State)
    ensures r.input == state.input && r.output == ErrorAnswer && r.tipo == ""
  {
    State(state.input, ErrorAnswer, "")
  }

  const EntryPoint: string := "classificar"
  const Nodes: set<string> := {"classificar", "realizar_calculo", "responder_curiosidades", "responder_erro"}
  /** The key-to-node map of the conditional edge leaving `classificar`. */
  const Branches: map<string, string> :=
    map[Calculo := "realizar_calculo", Curiosidade := "responder_curiosidades", Desconhecido := "responder_erro"]
  const FinishPoints: set<string> := {"realizar_calculo", "responder_curiosidades", "responder_erro"}

  /** The routing lambda of the conditional edge: a one-element list holding the label. */
  function RouteKeys(state: State): (r: seq<string>)
    ensures |r| == 1 && r[0] == state.tipo
  {
    [state.tipo]
  }

  /** Runs the answering node called `name`; `None` for a name that is not one of them. */
  function RunAnswerNode(name: string, state: State, llm: string -> string): (r: Option<State>)
    ensures r.Some? <==> name in FinishPoints
    ensures r.Some? ==> r.value.input == state.input
  {
    if name == "realizar_calculo" then Some(RealizarCalculo(state))
    else if name == "responder_curiosidades" then Some(ResponderCuriosidades(state, llm))
    else if name == "responder_erro" then Some(ResponderErro(state))
    else None
  }

  /** What can stop a run of the graph. */
  datatype RunError = UnmappedKey(key: string) | NoSuchNode(name: string)

  /** The outcome of a successful run: the final answer and the nodes activated, in order. */
  datatype Run = Run(output: string, path: seq<string>)

  /**
   * One invocation of the compiled graph on a question: the entry node
   * classifies, the routing key is looked up in the branch map, and the
   * chosen answering node produces the answer.
   */
  function Invoke(input: string, llm: string -> string): (r: Result<Run, RunError>)
    ensures r.Err? <==> Classification(input) !in Branches
    ensures r.Ok? ==> r.value.path == [EntryPoint, Branches[Classification(input)]]
    ensures r.Ok? ==> r.value.path[1] in FinishPoints
  {
    var classified := State(input, "", Classification(input));
    var key := RouteKeys(classified)[0];
    if key !in Branches then Err(UnmappedKey(key))
    else
      var target := Branches[key];
      match RunAnswerNode(target, classified, llm)
      case None => Err(NoSuchNode(target))
      case Some(answered) => Ok(Run(answered.output, [EntryPoint, target]))
  }

  /** The declared graph hangs together: entry, branch targets and finish points are all registered nodes. */
  lemma GraphWellFormed()
    ensures EntryPoint in Nodes
    ensures forall k :: k in Branches ==> Branches[k] in Nodes && Branches[k] in FinishPoints
    ensures FinishPoints <= Nodes && EntryPoint !in FinishPoints
  {
  }

  /** Routing is total: every label `classificar` can produce is a key of the branch map, leading to a finish point. */
  lemma RoutingTotal(state: State)
    ensures RouteKeys(state.(tipo := Classification(state.input)))[0] in Branches
    ensures Branches[Classification(state.input)] in FinishPoints
  {
  }

  /**
   * Every question is answered, along a two-node path from the entry to a
   * finish point, and the answer is the one of the branch its label selects.
   * The answering nodes' language model is a total parameter here: a failing
   * model call is not among the outcomes.
   */
  lemma InvokeAnswers(input: string, llm: string -> string)
    ensures Invoke(input, llm).Ok?
    ensures Invoke(input, llm).value.path == [EntryPoint, Branches[Classification(input)]]
    ensures Invoke(input, llm).value.path[1] in FinishPoints
    ensures Classification(input) == Calculo ==> Invoke(input, llm).value.output == CalcAnswer
    ensures Classification(input) == Curiosidade ==> Invoke(input, llm).value.output == llm(input)
    ensures Classification(input) == Desconhecido ==> Invoke(input, llm).value.output == ErrorAnswer
  {
  }

  lemma QuantoKeywords()
    ensures AnyKeyword("quanto é 2 + 2?", CalcKeywords)
  {
    assert OccursAt("quanto é 2 + 2?", "quanto é", 0);
    assert Contains("quanto é 2 + 2?", CalcKeywords[1]);
  }

  lemma EinsteinKeywords()
    ensures !AnyKeyword("quem é albert einstein?", CalcKeywords)
    ensures AnyKeyword("quem é albert einstein?", CurioKeywords)
  {
    var s := "quem é albert einstein?";
    assert 'o' !in s && '+' !in s && 'c' !in s;
    MissingCharExcludes(s, "soma", 1);
    MissingCharExcludes(s, "quanto é", 5);
    MissingCharExcludes(s, "+", 0);
    MissingCharExcludes(s, "calcular", 0);
    assert OccursAt(s, "quem é", 0);
    assert Contains(s, CurioKeywords[0]);
  }

  lemma RelatividadeNoCalc()
    ensures !AnyKeyword("o que é a teoria da relatividade?", CalcKeywords)
  {
    var s := "o que é a teoria da relatividade?";
    assert 's' !in s && 'n' !in s && '+' !in s && 'c' !in s;
    MissingCharExcludes(s, "soma", 0);
    MissingCharExcludes(s, "quanto é", 3);
    MissingCharExcludes(s, "+", 0);
    MissingCharExcludes(s, "calcular", 0);
  }

  lemma RelatividadeCurio()
    ensures AnyKeyword("o que é a teoria da relatividade?", CurioKeywords)
  {
    var s := "o que é a teoria da relatividade?";
    assert OccursAt(s, "o que é", 0);
    assert Contains(s, CurioKeywords[1]);
  }

  lemma CapitalNoCalc()
    ensures !AnyKeyword("qual é a capital da frança?", CalcKeywords)
  {
    var s := "qual é a capital da frança?";
    assert 's' !in s && 'o' !in s && '+' !in s;
    MissingCharExcludes(s, "soma", 0);
    MissingCharExcludes(s, "quanto é", 5);
    MissingCharExcludes(s, "+", 0);
    MissingPairExcludes(s, "calcular", 2);
  }

  lemma CapitalNoCurio()
    ensures !AnyKeyword("qual é a capital da frança?", CurioKeywords)
  {
    var s := "qual é a capital da frança?";
    assert 'm' !in s && 'o' !in s;
    MissingCharExcludes(s, "quem é", 3);
    MissingCharExcludes(s, "o que é", 0);
    MissingCharExcludes(s, "curiosidade", 4);
    MissingCharExcludes(s, "fato", 3);
  }

  lemma ComandoNoCalc()
    ensures !AnyKeyword("me diga um comando especial", CalcKeywords)
  {
    var s := "me diga um comando especial";
    assert 'q' !in s && '+' !in s && 'r' !in s;
    MissingPairExcludes(s, "soma", 0);
    MissingCharExcludes(s, "quanto é", 0);
    MissingCharExcludes(s, "+", 0);
    MissingCharExcludes(s, "calcular", 7);
  }

  lemma ComandoNoCurio()
    ensures !AnyKeyword("me diga um comando especial", CurioKeywords)
  {
    var s := "me diga um comando especial";
    assert 'q' !in s && 'r' !in s && 'f' !in s;
    MissingCharExcludes(s, "quem é", 0);
    MissingCharExcludes(s, "o que é", 2);
    MissingCharExcludes(s, "curiosidade", 2);
    MissingCharExcludes(s, "fato", 0);
  }

  /** The demonstration question "Quanto é 2 + 2?" is a calculation. */
  lemma DemoCalculation()
    ensures Classification("Quanto é 2 + 2?") == Calculo
  {
    assert Lower("Quanto é 2 + 2?") == "quanto é 2 + 2?";
    QuantoKeywords();
    CalcHasPriority("Quanto é 2 + 2?");
  }

  /** The demonstration question "Quem é Albert Einstein?" is a curiosity. */
  lemma DemoEinstein()
    ensures Classification("Quem é Albert Einstein?") == Curiosidade
  {
    assert Lower("Quem é Albert Einstein?") == "quem é albert einstein?";
    EinsteinKeywords();
    CuriosityExactly("Quem é Albert Einstein?");
  }

  /** The demonstration question "O que é a teoria da relatividade?" is a curiosity. */
  lemma DemoRelatividade()
    ensures Classification("O que é a teoria da relatividade?") == Curiosidade
  {
    assert Lower("O que é a teoria da relatividade?") == "o que é a teoria da relatividade?";
    RelatividadeNoCalc();
    RelatividadeCurio();
    CuriosityExactly("O que é a teoria da relatividade?");
  }

  /** The demonstration question "Qual é a capital da França?" matches no keyword. */
  lemma DemoCapital()
    ensures Classification("Qual é a capital da França?") == Desconhecido
  {
    assert Lower("Qual é a capital da França?") == "qual é a capital da frança?";
    CapitalNoCalc();
    CapitalNoCurio();
    UnknownExactly("Qual é a capital da França?");
  }

  /** The demonstration question "Me diga um comando especial" matches no keyword. */
  lemma DemoComando()
    ensures Classification("Me diga um comando especial") == Desconhecido
  {
    assert Lower("Me diga um comando especial") == "me diga um comando especial";
    ComandoNoCalc();
    ComandoNoCurio();
    UnknownExactly("Me diga um comando especial");
  }
}
