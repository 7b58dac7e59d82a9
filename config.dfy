/** The generator's option record (`this.props`) and the question flow that
    fills it in: `initializing` creates the all-false defaults, `prompting`
    asks a fixed list of questions, each guarded by a `when` predicate over
    the answers collected so far, and merges the answers with `Object.assign`. */
module Config {
  import Naming

  datatype Option<T> = None | Some(value: T)

  /** The boolean options, one per yes/no question. */
  datatype Flag = WfLoader | React | ReactRouter | Mobx | Redux | Node | Mongo | Api | Jwt | Heroku | Jest | Flow

  /** `this.props`. `name` is absent until the prompts have been answered. */
  datatype Props = Props(
    name: Option<string>,
    wfloader: bool,
    react: bool, redux: bool, reactRouter: bool, mobx: bool,
    node: bool, mongo: bool, heroku: bool,
    jest: bool, api: bool, jwt: bool, flow: bool,
    yarn: bool,
    nodeVersion: string,
    secret: string)

  /** The value of a boolean option in the record. */
  function Get(p: Props, f: Flag): bool
  {
    match f
    case WfLoader => p.wfloader
    case React => p.react
    case ReactRouter => p.reactRouter
    case Mobx => p.mobx
    case Redux => p.redux
    case Node => p.node
    case Mongo => p.mongo
    case Api => p.api
    case Jwt => p.jwt
    case Heroku => p.heroku
    case Jest => p.jest
    case Flow => p.flow
  }

  /** Every option of the record is off. */
  predicate AllOff(p: Props)
  {
    forall f :: !Get(p, f)
  }

  /** The record `initializing` builds before it probes for yarn: every option
      off, yarn assumed present. The runtime version and the random secret come
      from the environment and are parameters here. */
  function Initial(nodeVersion: string, secret: string): (p: Props)
    ensures AllOff(p)
    ensures p.yarn && p.name == None
    ensures p.nodeVersion == nodeVersion && p.secret == secret
  {
    Props(None, false, false, false, false, false, false, false, false, false, false, false, false,
          true, nodeVersion, secret)
  }

  /** The answers object the prompt engine hands to `then`: the name (always
      asked) and the yes/no answers of the questions that were asked. A
      question that was skipped has no entry. */
  datatype Answers = Answers(name: string, flags: map<Flag, bool>)

  /** `Object.assign(this.props, answers)`: every answered option overwrites
      the record's value, everything else is left as it was. */
  function Assign(p: Props, a: Answers): (r: Props)
    ensures r.name == Some(a.name)
    ensures r.yarn == p.yarn && r.nodeVersion == p.nodeVersion && r.secret == p.secret
  {
    Props(Some(a.name),
          Pick(a, WfLoader, p),
          Pick(a, React, p), Pick(a, Redux, p), Pick(a, ReactRouter, p), Pick(a, Mobx, p),
          Pick(a, Node, p), Pick(a, Mongo, p), Pick(a, Heroku, p),
          Pick(a, Jest, p), Pick(a, Api, p), Pick(a, Jwt, p), Pick(a, Flow, p),
          p.yarn, p.nodeVersion, p.secret)
  }

  /** `Object.assign` semantics on the options: an answered option takes the
      answer, an unanswered one keeps the record's value. */
  lemma AssignOverwrites(p: Props, a: Answers, f: Flag)
    ensures Get(Assign(p, a), f) == if f in a.flags then a.flags[f] else Get(p, f)
  {
    match f
    case WfLoader =>
    case React =>
    case ReactRouter =>
    case Mobx =>
    case Redux =>
    case Node =>
    case Mongo =>
    case Api =>
    case Jwt =>
    case Heroku =>
    case Jest =>
    case Flow =>
  }

  /** One property copied by `Object.assign`: the answer if there is one. */
  function Pick(a: Answers, f: Flag, p: Props): bool
  {
    if f in a.flags then a.flags[f] else Get(p, f)
  }

  /** JavaScript truthiness of `r.f` on the answers so far: a missing key is
      `undefined`, which is falsy. */
  predicate Truthy(r: map<Flag, bool>, f: Flag)
  {
    f in r && r[f]
  }

  /** The shapes of `when` predicate the questions use. */
  datatype Guard = Always | IfSet(on: Flag) | IfSetAndUnset(on: Flag, off: Flag)

  predicate Holds(g: Guard, r: map<Flag, bool>)
  {
    match g
    case Always => true
    case IfSet(on) => Truthy(r, on)
    case IfSetAndUnset(on, off) => Truthy(r, on) && !Truthy(r, off)
  }

  /** A yes/no question: the option it sets, when it is asked, and the answer
      taken when the user just accepts the default. */
  datatype Question = Confirm(key: Flag, when: Guard, byDefault: bool)

  /** The yes/no questions of `prompting`, in the order they are asked. The
      MobX question tests `redux` before Redux has been asked. */
  const Questions: seq<Question> := [
    Confirm(WfLoader, Always, false),
    Confirm(React, Always, false),
    Confirm(ReactRouter, IfSet(React), false),
    Confirm(Mobx, IfSetAndUnset(React, Redux), false),
    Confirm(Redux, IfSetAndUnset(React, Mobx), false),
    Confirm(Node, Always, false),
    Confirm(Mongo, IfSet(Node), false),
    Confirm(Api, IfSet(Mongo), false),
    Confirm(Jwt, IfSet(Api), false),
    Confirm(Heroku, IfSet(Node), false),
    Confirm(Jest, Always, false),
    Confirm(Flow, Always, false)
  ]

  /** What the user types: a project name (`None`, or an empty line, keeps
      the suggested one, as the prompt engine does for an `input` question
      with a `default`) and a yes/no reply per option (a missing entry keeps
      the question's default). Replies to questions that are never asked
      have no effect. */
  datatype Replies = Replies(name: Option<string>, confirms: map<Flag, bool>)

  function Reply(q: Question, confirms: map<Flag, bool>): bool
  {
    if q.key in confirms then confirms[q.key] else q.byDefault
  }

  /** One question: asked, and its reply recorded, only if its guard holds. */
  function Step(q: Question, confirms: map<Flag, bool>, r: map<Flag, bool>): map<Flag, bool>
  {
    if Holds(q.when, r) then r[q.key := Reply(q, confirms)] else r
  }

  /** The forward-only fold of the prompt engine over a question list. */
  function Ask(qs: seq<Question>, confirms: map<Flag, bool>, r: map<Flag, bool>): map<Flag, bool>
    decreases |qs|
  {
    if qs == [] then r else Ask(qs[1..], confirms, Step(qs[0], confirms, r))
  }

  /** The answers object `prompting` receives: the name question comes first
      and is always asked, its suggestion being `_parseName(appname)`, where
      `appname` is Yeoman's application name. The collected options meet
      every dependency the question order sets up, and an option is on only
      when the user answered yes to it, every question defaulting to no. */
  function Collect(appname: string, replies: Replies): (a: Answers)
    ensures replies.name == None || replies.name.value == "" ==> a.name == Naming.ParseName(appname)
    ensures replies.name != None && replies.name.value != "" ==> a.name == replies.name.value
    ensures a.name == "" ==> appname == ""
    ensures Consistent(a.flags)
    ensures forall f :: Truthy(a.flags, f) ==> f in replies.confirms && replies.confirms[f]
  {
    CollectedConsistent(replies.confirms);
    CollectedConfirmed(replies.confirms);
    var name := match replies.name
      case Some(n) => if n == "" then Naming.ParseName(appname) else n
      case None => Naming.ParseName(appname);
    Answers(name, Ask(Questions, replies.confirms, map[]))
  }

  /** Every option the questions switch on was answered yes. */
  lemma CollectedConfirmed(confirms: map<Flag, bool>)
    ensures forall f :: Truthy(Ask(Questions, confirms, map[]), f) ==> f in confirms && confirms[f]
  {
    QuestionsDefaultNo();
    AskOnlyConfirmed(Questions, confirms, map[]);
  }

  /** Each yes/no question defaults to no. */
  lemma QuestionsDefaultNo()
    ensures forall j :: 0 <= j < |Questions| ==> !Questions[j].byDefault
  {
  }

  /** With every question defaulting to no, the fold switches an option on
      only when the user replied yes to it. */
  lemma {:induction false} AskOnlyConfirmed(qs: seq<Question>, confirms: map<Flag, bool>, r: map<Flag, bool>)
    requires forall j :: 0 <= j < |qs| ==> !qs[j].byDefault
    requires forall f :: Truthy(r, f) ==> f in confirms && confirms[f]
    ensures forall f :: Truthy(Ask(qs, confirms, r), f) ==> f in confirms && confirms[f]
    decreases |qs|
  {
    if qs != [] {
      assert forall j :: 0 <= j < |qs[1..]| ==> qs[1..][j] == qs[j + 1];
      AskOnlyConfirmed(qs[1..], confirms, Step(qs[0], confirms, r));
    }
  }

  predicate DistinctKeys(qs: seq<Question>)
  {
    forall i, j :: 0 <= i < j < |qs| ==> qs[i].key != qs[j].key
  }

  /** Folding over two lists one after the other is folding over their join. */
  lemma {:induction false} AskSplit(qs: seq<Question>, k: nat, confirms: map<Flag, bool>, r: map<Flag, bool>)
    requires k <= |qs|
    ensures Ask(qs, confirms, r) == Ask(qs[k..], confirms, Ask(qs[..k], confirms, r))
    decreases k
  {
    if k > 0 {
      assert qs[1..][k - 1..] == qs[k..];
      assert qs[..k][1..] == qs[1..][..k - 1];
      AskSplit(qs[1..], k - 1, confirms, Step(qs[0], confirms, r));
    }
  }

  /** The fold only ever records the options its questions are about; any
      other entry comes through untouched. */
  lemma {:induction false} AskOnlyTouchesKeys(qs: seq<Question>, confirms: map<Flag, bool>, r: map<Flag, bool>, f: Flag)
    requires forall j :: 0 <= j < |qs| ==> qs[j].key != f
    ensures f in Ask(qs, confirms, r) <==> f in r
    ensures f in r ==> Ask(qs, confirms, r)[f] == r[f]
    decreases |qs|
  {
    if qs != [] {
      assert forall j :: 0 <= j < |qs[1..]| ==> qs[1..][j] == qs[j + 1];
      AskOnlyTouchesKeys(qs[1..], confirms, Step(qs[0], confirms, r), f);
    }
  }

  /** With each option asked at most once, the i-th question has an answer
      exactly when its guard held on the answers collected before it, and the
      answer is the user's reply (or the default). A skipped question leaves
      no entry, so `Object.assign` keeps the record's value. */
  lemma AnsweredIffAsked(qs: seq<Question>, confirms: map<Flag, bool>, i: nat)
    requires DistinctKeys(qs) && i < |qs|
    ensures var out := Ask(qs, confirms, map[]);
            (qs[i].key in out <==> Holds(qs[i].when, Ask(qs[..i], confirms, map[])))
            && (qs[i].key in out ==> out[qs[i].key] == Reply(qs[i], confirms))
  {
    var before := Ask(qs[..i], confirms, map[]);
    var key := qs[i].key;
    AskSplit(qs, i, confirms, map[]);
    assert qs[i..][1..] == qs[i + 1..];
    var after := Step(qs[i], confirms, before);
    assert Ask(qs[i..], confirms, before) == Ask(qs[i + 1..], confirms, after);
    var later := qs[i + 1..];
    forall j | 0 <= j < |later| ensures later[j].key != key {
      assert later[j] == qs[i + 1 + j];
    }
    forall j | 0 <= j < |qs[..i]| ensures qs[..i][j].key != key {
      assert qs[..i][j] == qs[j];
    }
    AskOnlyTouchesKeys(qs[..i], confirms, map[], key);
    AskOnlyTouchesKeys(qs[i + 1..], confirms, after, key);
  }

  /** The dependencies the question order establishes between the options. */
  predicate Consistent(r: map<Flag, bool>)
  {
    && !(Truthy(r, Mobx) && Truthy(r, Redux))
    && (Truthy(r, ReactRouter) ==> Truthy(r, React))
    && (Truthy(r, Mobx) ==> Truthy(r, React))
    && (Truthy(r, Redux) ==> Truthy(r, React))
    && (Truthy(r, Jwt) ==> Truthy(r, Api))
    && (Truthy(r, Api) ==> Truthy(r, Mongo))
    && (Truthy(r, Mongo) ==> Truthy(r, Node))
    && (Truthy(r, Heroku) ==> Truthy(r, Node))
  }

  /** The same dependencies, read off a finished record. */
  predicate ValidProps(p: Props)
  {
    && !(p.mobx && p.redux)
    && (p.reactRouter ==> p.react)
    && (p.mobx ==> p.react)
    && (p.redux ==> p.react)
    && (p.jwt ==> p.api)
    && (p.api ==> p.mongo)
    && (p.mongo ==> p.node)
    && (p.heroku ==> p.node)
  }

  /** Where each option's question sits in `Questions`. */
  function Position(f: Flag): (n: nat)
    ensures n < |Questions| && Questions[n].key == f
    ensures forall i :: 0 <= i < |Questions| && Questions[i].key == f ==> i == n
  {
    match f
    case WfLoader => 0
    case React => 1
    case ReactRouter => 2
    case Mobx => 3
    case Redux => 4
    case Node => 5
    case Mongo => 6
    case Api => 7
    case Jwt => 8
    case Heroku => 9
    case Jest => 10
    case Flow => 11
  }

  lemma PositionOfQuestion(i: nat)
    requires i < |Questions|
    ensures Position(Questions[i].key) == i
  {
  }

  lemma QuestionsDistinct()
    ensures DistinctKeys(Questions)
  {
    forall i, j | 0 <= i < j < |Questions| ensures Questions[i].key != Questions[j].key {
      PositionOfQuestion(i);
      PositionOfQuestion(j);
    }
  }

  /** After the first i questions: only their options are recorded, and the
      record is consistent. */
  ghost predicate AskedUpTo(i: nat, r: map<Flag, bool>)
  {
    (forall f :: f in r ==> Position(f) < i) && Consistent(r)
  }

  /** Each question keeps the record consistent: its guard ensures what its
      option depends on, and nothing that depends on its option has been
      asked yet. */
  lemma StepKeepsConsistent(i: nat, confirms: map<Flag, bool>, r: map<Flag, bool>)
    requires i < |Questions| && AskedUpTo(i, r)
    ensures AskedUpTo(i + 1, Step(Questions[i], confirms, r))
  {
    PositionOfQuestion(i);
    DependentGuards();
    StepKeepsDependency(i, confirms, r, ReactRouter, React);
    StepKeepsDependency(i, confirms, r, Mobx, React);
    StepKeepsDependency(i, confirms, r, Redux, React);
    StepKeepsDependency(i, confirms, r, Jwt, Api);
    StepKeepsDependency(i, confirms, r, Api, Mongo);
    StepKeepsDependency(i, confirms, r, Mongo, Node);
    StepKeepsDependency(i, confirms, r, Heroku, Node);
    StepKeepsExclusion(i, confirms, r, Mobx, Redux);
  }

  /** The guards of the questions whose options depend on another. */
  lemma DependentGuards()
    ensures Questions[Position(ReactRouter)].when == IfSet(React)
    ensures Questions[Position(Mobx)].when == IfSetAndUnset(React, Redux)
    ensures Questions[Position(Redux)].when == IfSetAndUnset(React, Mobx)
    ensures Questions[Position(Mongo)].when == IfSet(Node)
    ensures Questions[Position(Api)].when == IfSet(Mongo)
    ensures Questions[Position(Jwt)].when == IfSet(Api)
    ensures Questions[Position(Heroku)].when == IfSet(Node)
  {
  }

  /** A dependency "`a` needs `b`" survives a step when `b` is asked before
      `a` and the question for `a` is only put once `b` is set. */
  lemma StepKeepsDependency(i: nat, confirms: map<Flag, bool>, r: map<Flag, bool>, a: Flag, b: Flag)
    requires i < |Questions| && forall f :: f in r ==> Position(f) < i
    requires Position(b) < Position(a)
    requires Truthy(r, a) ==> Truthy(r, b)
    requires Holds(Questions[Position(a)].when, r) ==> Truthy(r, b)
    ensures var r' := Step(Questions[i], confirms, r);
            Truthy(r', a) ==> Truthy(r', b)
  {
    PositionOfQuestion(i);
  }

  /** An exclusion "not both `a` and `b`" survives a step when each of the
      two questions is only put while the other option is unset. */
  lemma StepKeepsExclusion(i: nat, confirms: map<Flag, bool>, r: map<Flag, bool>, a: Flag, b: Flag)
    requires i < |Questions| && a != b
    requires !(Truthy(r, a) && Truthy(r, b))
    requires Holds(Questions[Position(a)].when, r) ==> !Truthy(r, b)
    requires Holds(Questions[Position(b)].when, r) ==> !Truthy(r, a)
    ensures var r' := Step(Questions[i], confirms, r);
            !(Truthy(r', a) && Truthy(r', b))
  {
    PositionOfQuestion(i);
  }

  /** After any prefix of the questions the record is consistent. */
  lemma {:induction false} PrefixConsistent(k: nat, confirms: map<Flag, bool>)
    requires k <= |Questions|
    ensures AskedUpTo(k, Ask(Questions[..k], confirms, map[]))
  {
    if k > 0 {
      PrefixConsistent(k - 1, confirms);
      var before := Ask(Questions[..k - 1], confirms, map[]);
      AskSplit(Questions[..k], k - 1, confirms, map[]);
      assert Questions[..k][..k - 1] == Questions[..k - 1];
      assert Questions[..k][k - 1..] == [Questions[k - 1]];
      assert Ask([Questions[k - 1]], confirms, before) == Step(Questions[k - 1], confirms, before);
      StepKeepsConsistent(k - 1, confirms, before);
    }
  }

  /** Whatever the user replies, the collected answers never switch on both
      MobX and Redux, and every sub-option implies the option it refines. */
  lemma CollectedConsistent(confirms: map<Flag, bool>)
    ensures Consistent(Ask(Questions, confirms, map[]))
  {
    PrefixConsistent(|Questions|, confirms);
    assert Questions[..|Questions|] == Questions;
  }

  /** An option asked among the first k questions has its final answer
      already after those k questions. */
  lemma SameAnswerLater(confirms: map<Flag, bool>, k: nat, f: Flag)
    requires Position(f) < k <= |Questions|
    ensures Truthy(Ask(Questions[..k], confirms, map[]), f) == Truthy(Ask(Questions, confirms, map[]), f)
  {
    AskSplit(Questions, k, confirms, map[]);
    QuestionsDistinct();
    forall j | 0 <= j < |Questions[k..]| ensures Questions[k..][j].key != f {
      assert Questions[k..][j] == Questions[k + j];
    }
    AskOnlyTouchesKeys(Questions[k..], confirms, Ask(Questions[..k], confirms, map[]), f);
  }

  /** The MobX question is gated on React alone (Redux has not been asked
      when its guard is evaluated); the Redux question on React without MobX. */
  lemma StoreQuestionsGating(confirms: map<Flag, bool>)
    ensures var out := Ask(Questions, confirms, map[]);
            && (Mobx in out <==> Truthy(out, React))
            && (Redux in out <==> Truthy(out, React) && !Truthy(out, Mobx))
  {
    QuestionsDistinct();
    AnsweredIffAsked(Questions, confirms, 3);
    AnsweredIffAsked(Questions, confirms, 4);
    PrefixConsistent(3, confirms);
    SameAnswerLater(confirms, 3, React);
    SameAnswerLater(confirms, 4, React);
    SameAnswerLater(confirms, 4, Mobx);
  }

  /** Merged onto a record with every option off, an option ends up on
      exactly when it was answered yes. */
  lemma AssignOntoDefaults(init: Props, a: Answers, f: Flag)
    requires AllOff(init)
    ensures Get(Assign(init, a), f) == Truthy(a.flags, f)
  {
    AssignOverwrites(init, a, f);
  }

  /** `prompting` over a record whose options are all off, as `initializing`
      leaves it: the record satisfies the option dependencies, and an option
      whose question was skipped keeps its default `false`. */
  lemma PromptedPropsValid(p: Props, appname: string, replies: Replies)
    requires AllOff(p)
    ensures var a := Collect(appname, replies);
            && ValidProps(Assign(p, a))
            && (forall f :: Get(Assign(p, a), f) == Truthy(a.flags, f))
  {
    CollectedConsistent(replies.confirms);
    var a := Collect(appname, replies);
    forall f ensures Get(Assign(p, a), f) == Truthy(a.flags, f) {
      AssignOntoDefaults(p, a, f);
    }
    ValidFromConsistent(Assign(p, a), a.flags);
  }

  /** A record whose options mirror a consistent answer map is valid. */
  lemma ValidFromConsistent(p: Props, r: map<Flag, bool>)
    requires Consistent(r)
    requires forall f :: Get(p, f) == Truthy(r, f)
    ensures ValidProps(p)
  {
    assert p.mobx == Get(p, Mobx) && p.redux == Get(p, Redux) && p.react == Get(p, React);
    assert p.reactRouter == Get(p, ReactRouter) && p.node == Get(p, Node) && p.mongo == Get(p, Mongo);
    assert p.api == Get(p, Api) && p.jwt == Get(p, Jwt) && p.heroku == Get(p, Heroku);
  }
}
