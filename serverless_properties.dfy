/** Properties of AwsProcess: the order of the remote calls, the names, defaults and
    wiring of the inputs each call receives, the returned outputs, and the removal
    order. */
module ServerlessProperties {
  import opened Js
  import opened Utils
  import opened Serverless

  /* ---------------------------------------------------------------------------
     Runs of the deployment sequence, whatever builds the inputs
     --------------------------------------------------------------------------- */

  /** What `default` builds the inputs from, besides the earlier outputs. */
  datatype Setup = Setup(config: Settings, inputs: map<string, Value>, ctx: Context)

  /** How the inputs of each deployment are built from a setup and the outputs of
      the deployments before it. */
  type Builder = (Setup, seq<map<string, Value>>) -> map<string, Value>

  /** The builder of `default`: `StepInputs` for each of the five deployments (a
      run never asks for a sixth). */
  function SetupInputs(s: Setup, outs: seq<map<string, Value>>): map<string, Value>
  {
    if |outs| < 5 then StepInputs(s.config, s.inputs, s.ctx, outs) else map[]
  }

  /** The deployment sequence of `DeployFrom` with the inputs made by `build`: a
      reference for the order of the calls and the abort, which do not depend on
      what the inputs are. */
  function RunFrom(before: seq<Call>, s: Setup, build: Builder, deploy: Deployer, outs: seq<map<string, Value>>): Run
    requires |outs| <= 5
    decreases 5 - |outs|
  {
    if |outs| == 5 then
      Run(before + [SaveCall], Ok(Outputs(outs[0], outs[1], outs[2], outs[3], outs[4])))
    else
      var c := ApplyOrder[|outs|];
      var trace := before + [DeployCall(c, build(s, outs))];
      match deploy(c, build(s, outs))
      case Err(e) => Run(trace, Err(e))
      case Ok(o) => RunFrom(trace, s, build, deploy, outs + [o])
  }

  /** `default`'s run is the deployment sequence with `default`'s builder. */
  lemma {:induction false} DeployFromIsRunFrom(before: seq<Call>, config: Settings, inputs: map<string, Value>,
                                               ctx: Context, deploy: Deployer, outs: seq<map<string, Value>>)
    requires |outs| <= 5
    ensures DeployFrom(before, config, inputs, ctx, deploy, outs)
            == RunFrom(before, Setup(config, inputs, ctx), SetupInputs, deploy, outs)
    decreases 5 - |outs|
  {
    if |outs| < 5 {
      var stepInputs := StepInputs(config, inputs, ctx, outs);
      assert SetupInputs(Setup(config, inputs, ctx), outs) == stepInputs;
      match deploy(ApplyOrder[|outs|], stepInputs)
      case Err(_) =>
      case Ok(o) =>
        DeployFromIsRunFrom(before + [DeployCall(ApplyOrder[|outs|], stepInputs)], config, inputs, ctx, deploy, outs + [o]);
    }
  }

  /** The outputs of the deployments that succeed, from the position of `outs` on:
      `outs`, extended by each further component's output until one is rejected or
      all five are deployed. */
  function Answers(s: Setup, build: Builder, deploy: Deployer, outs: seq<map<string, Value>>): (all: seq<map<string, Value>>)
    requires |outs| <= 5
    ensures |outs| <= |all| <= 5 && all[..|outs|] == outs
    ensures forall i | |outs| <= i < |all| :: deploy(ApplyOrder[i], build(s, all[..i])) == Ok(all[i])
    ensures |all| < 5 ==> deploy(ApplyOrder[|all|], build(s, all)).Err?
    decreases 5 - |outs|
  {
    if |outs| == 5 then outs
    else
      match deploy(ApplyOrder[|outs|], build(s, outs))
      case Err(_) => outs
      case Ok(o) =>
        var all := Answers(s, build, deploy, outs + [o]);
        assert all[..|outs|] == (outs + [o])[..|outs|];
        all
  }

  /** The calls of a run whose successful deployments answered `all`, from the
      `k`-th on: a deployment for each answered component and, when one was
      rejected, for that one; after five answers, the save. */
  function Calls(s: Setup, build: Builder, all: seq<map<string, Value>>, k: nat): (calls: seq<Call>)
    requires k <= |all| <= 5
    ensures |calls| == (if |all| == 5 then 6 else |all| + 1) - k
    ensures forall i | k <= i <= |all| && i < 5 :: calls[i - k] == DeployCall(ApplyOrder[i], build(s, all[..i]))
    ensures |all| == 5 ==> calls[5 - k] == SaveCall
    decreases 5 - k
  {
    if k == 5 then [SaveCall]
    else
      var call := DeployCall(ApplyOrder[k], build(s, all[..k]));
      if k == |all| then [call] else [call] + Calls(s, build, all, k + 1)
  }

  /** What a run returns once its answers are known. */
  function Returned(s: Setup, build: Builder, deploy: Deployer, all: seq<map<string, Value>>): Result<map<string, Value>>
    requires |all| <= 5
  {
    if |all| == 5 then Ok(Outputs(all[0], all[1], all[2], all[3], all[4]))
    else deploy(ApplyOrder[|all|], build(s, all))
  }

  /** A run from any point is its history followed by the calls its answers
      determine, and returns what they determine. */
  lemma {:induction false} RunFromAnswers(before: seq<Call>, s: Setup, build: Builder, deploy: Deployer, outs: seq<map<string, Value>>)
    requires |outs| <= 5
    ensures var all := Answers(s, build, deploy, outs);
            RunFrom(before, s, build, deploy, outs) == Run(before + Calls(s, build, all, |outs|), Returned(s, build, deploy, all))
    decreases 5 - |outs|
  {
    var k := |outs|;
    assert outs[..k] == outs;
    if k < 5 {
      var call := DeployCall(ApplyOrder[k], build(s, outs));
      match deploy(ApplyOrder[k], build(s, outs))
      case Err(_) =>
      case Ok(o) =>
        var all := Answers(s, build, deploy, outs + [o]);
        RunFromAnswers(before + [call], s, build, deploy, outs + [o]);
        assert all[..k] == (all[..k + 1])[..k];
        assert Calls(s, build, all, k) == [call] + Calls(s, build, all, k + 1);
        assert before + [call] + Calls(s, build, all, k + 1) == before + Calls(s, build, all, k);
    }
  }

  /** The trace of a run from scratch is the calls its answers determine. */
  lemma RunCalls(s: Setup, build: Builder, deploy: Deployer)
    ensures var all := Answers(s, build, deploy, []);
            RunFrom([], s, build, deploy, []) == Run(Calls(s, build, all, 0), Returned(s, build, deploy, all))
  {
    RunFromAnswers([], s, build, deploy, []);
    var all := Answers(s, build, deploy, []);
    assert [] + Calls(s, build, all, 0) == Calls(s, build, all, 0);
  }

  /** The order and abort of the deployment sequence, for any builder. */
  lemma RunShape(s: Setup, build: Builder, deploy: Deployer)
    ensures var run := RunFrom([], s, build, deploy, []);
            var n := if run.result.Ok? then 5 else |run.trace|;
            1 <= n <= 5
            && (run.result.Ok? ==> |run.trace| == 6 && run.trace[5] == SaveCall)
            && (forall i | 0 <= i < n :: run.trace[i].DeployCall? && run.trace[i].component == ApplyOrder[i])
            && (forall i | 0 <= i < n - 1 :: deploy(run.trace[i].component, run.trace[i].inputs).Ok?)
            && (run.result.Err? <==> deploy(run.trace[n - 1].component, run.trace[n - 1].inputs).Err?)
            && (run.result.Err? ==> run.result == deploy(run.trace[n - 1].component, run.trace[n - 1].inputs))
  {
    RunCalls(s, build, deploy);
    var all := Answers(s, build, deploy, []);
    var run := RunFrom([], s, build, deploy, []);
    if |all| == 5 {
      assert run.result.Ok? && |run.trace| == 6;
    } else {
      assert all[..|all|] == all;
      assert run.result.Err? && |run.trace| == |all| + 1;
    }
  }

  /** The `i`-th call of a run from scratch deploys the `i`-th component with the
      inputs built from the answers to the calls before it, each of which was
      answered. */
  lemma CallAt(s: Setup, build: Builder, deploy: Deployer, i: nat)
    requires i < 5 && i < |RunFrom([], s, build, deploy, []).trace|
    ensures var run := RunFrom([], s, build, deploy, []);
            var all := Answers(s, build, deploy, []);
            i <= |all|
            && (forall j | 0 <= j < i :: run.trace[j] == DeployCall(ApplyOrder[j], build(s, all[..j]))
                                         && deploy(ApplyOrder[j], build(s, all[..j])) == Ok(all[j]))
            && run.trace[i] == DeployCall(ApplyOrder[i], build(s, all[..i]))
  {
    RunCalls(s, build, deploy);
  }

  /** Two remote worlds that answer the first `k` calls alike answer them with the
      same outputs: each answer is determined by the ones before it. */
  lemma {:induction false} AnswersAgree(s: Setup, build: Builder, d1: Deployer, d2: Deployer, k: nat)
    requires k <= |Answers(s, build, d1, [])|
    requires forall j | 0 <= j < k ::
               var all := Answers(s, build, d1, []);
               d2(ApplyOrder[j], build(s, all[..j])) == Ok(all[j])
    ensures k <= |Answers(s, build, d2, [])|
    ensures Answers(s, build, d2, [])[..k] == Answers(s, build, d1, [])[..k]
  {
    if k > 0 {
      AnswersAgree(s, build, d1, d2, k - 1);
      var a1 := Answers(s, build, d1, []);
      var a2 := Answers(s, build, d2, []);
      assert a1[..k - 1] == a2[..k - 1];
      assert a2[..|a2|] == a2;
      if |a2| == k - 1 {
        assert false;
      }
      assert a2[..k] == a2[..k - 1] + [a2[k - 1]];
      assert a1[..k] == a1[..k - 1] + [a1[k - 1]];
    }
  }

  /** In any run, each deployment's inputs depend only on the answers to the
      deployments before it. */
  lemma RunUsesOnlyEarlierAnswers(s: Setup, build: Builder, d1: Deployer, d2: Deployer, k: nat)
    requires k < |RunFrom([], s, build, d1, []).trace| && k < 5
    requires forall j | 0 <= j < k ::
               var call := RunFrom([], s, build, d1, []).trace[j];
               call.DeployCall? && d1(call.component, call.inputs) == d2(call.component, call.inputs)
    ensures k < |RunFrom([], s, build, d2, []).trace|
    ensures RunFrom([], s, build, d2, []).trace[k] == RunFrom([], s, build, d1, []).trace[k]
  {
    CallAt(s, build, d1, k);
    AnswersAgree(s, build, d1, d2, k);
    RunCalls(s, build, d2);
    var a1 := Answers(s, build, d1, []);
    var a2 := Answers(s, build, d2, []);
    assert a2[..k] == a1[..k];
  }

  /** A run from scratch that succeeds made five answered deployment calls, one per
      component in order, and returns the outputs built from their answers. */
  lemma RunReturns(s: Setup, build: Builder, deploy: Deployer)
    requires RunFrom([], s, build, deploy, []).result.Ok?
    ensures var run := RunFrom([], s, build, deploy, []);
            var all := Answers(s, build, deploy, []);
            |all| == 5 && |run.trace| == 6
            && (forall i | 0 <= i < 5 :: run.trace[i] == DeployCall(ApplyOrder[i], build(s, all[..i]))
                                         && deploy(ApplyOrder[i], build(s, all[..i])) == Ok(all[i]))
            && run.result.value == Outputs(all[0], all[1], all[2], all[3], all[4])
  {
    RunCalls(s, build, deploy);
  }

  /* ---------------------------------------------------------------------------
     `default`'s run
     --------------------------------------------------------------------------- */

  /** The output record a deployment call was answered with. */
  function OutputOf(deploy: Deployer, call: Call): map<string, Value>
    requires call.DeployCall? && deploy(call.component, call.inputs).Ok?
  {
    deploy(call.component, call.inputs).value
  }

  /** The settings `default(inputs)` reads: each of name, region, topic and code is
      the input's when the inputs have that key (whatever its value, even undefined
      or '') and the default otherwise; the name's text is its string conversion. */
  lemma SettingsOfInputs(inputs: map<string, Value>)
    ensures var config := ReadConfig(Config(inputs), inputs);
            config.name == (if "name" in inputs then inputs["name"] else Str(DefaultName))
            && config.region == (if "region" in inputs then inputs["region"] else Str(DefaultRegion))
            && config.topic == (if "topic" in inputs then inputs["topic"] else Str(DefaultTopic))
            && config.code == (if "code" in inputs then inputs["code"] else Str(DefaultCode))
            && config.nameText == ToStr(config.name)
  {
  }

  /** The role's policy is `getPolicy` of the raw `permissions`. The defaults carry
      no `permissions`, so the merged config's would give the same policy. */
  lemma PolicyOfInputs(inputs: map<string, Value>)
    ensures var config := ReadConfig(Config(inputs), inputs);
            config.policy == GetPolicy(Prop(inputs, "permissions"))
            && config.policy == GetPolicy(Prop(Config(inputs), "permissions"))
  {
    assert "permissions" !in Defaults;
  }

  /** A run of `default`'s body, after any history, continues that history; what it
      adds, and what it returns, do not depend on the history. */
  lemma DeployFromExtendsHistory(before: seq<Call>, config: Settings, inputs: map<string, Value>, ctx: Context, deploy: Deployer)
    ensures DeployFrom(before, config, inputs, ctx, deploy, []).trace == before + DeployFrom([], config, inputs, ctx, deploy, []).trace
    ensures DeployFrom(before, config, inputs, ctx, deploy, []).result == DeployFrom([], config, inputs, ctx, deploy, []).result
  {
    var s := Setup(config, inputs, ctx);
    DeployFromIsRunFrom(before, config, inputs, ctx, deploy, []);
    DeployFromIsRunFrom([], config, inputs, ctx, deploy, []);
    RunFromAnswers(before, s, SetupInputs, deploy, []);
    RunCalls(s, SetupInputs, deploy);
  }

  /** `default` deploys bucket, role, lambda, table, subscription, in that order,
      each after the previous one succeeded; the first rejection ends the run with
      that rejection, otherwise the state is saved after the fifth. */
  lemma ApplyOrderAndAbort(config: Settings, inputs: map<string, Value>, ctx: Context, deploy: Deployer)
    ensures var run := DeployFrom([], config, inputs, ctx, deploy, []);
            var n := if run.result.Ok? then 5 else |run.trace|;
            1 <= n <= 5
            && (run.result.Ok? ==> |run.trace| == 6 && run.trace[5] == SaveCall)
            && (forall i | 0 <= i < n :: run.trace[i].DeployCall? && run.trace[i].component == ApplyOrder[i])
            && (forall i | 0 <= i < n - 1 :: deploy(run.trace[i].component, run.trace[i].inputs).Ok?)
            && (run.result.Err? <==> deploy(run.trace[n - 1].component, run.trace[n - 1].inputs).Err?)
            && (run.result.Err? ==> run.result == deploy(run.trace[n - 1].component, run.trace[n - 1].inputs))
  {
    DeployFromIsRunFrom([], config, inputs, ctx, deploy, []);
    RunShape(Setup(config, inputs, ctx), SetupInputs, deploy);
  }

  /** The `i`-th call of `default`'s body deploys the `i`-th component with the
      inputs `StepInputs` builds from the answers to the calls before it, each of
      which was answered. */
  lemma DeployCallAt(config: Settings, inputs: map<string, Value>, ctx: Context, deploy: Deployer, i: nat)
    requires i < 5 && i < |DeployFrom([], config, inputs, ctx, deploy, []).trace|
    ensures var run := DeployFrom([], config, inputs, ctx, deploy, []);
            var all := Answers(Setup(config, inputs, ctx), SetupInputs, deploy, []);
            i <= |all|
            && (forall j | 0 <= j < i :: run.trace[j].DeployCall? && deploy(run.trace[j].component, run.trace[j].inputs) == Ok(all[j]))
            && run.trace[i] == DeployCall(ApplyOrder[i], StepInputs(config, inputs, ctx, all[..i]))
  {
    DeployFromIsRunFrom([], config, inputs, ctx, deploy, []);
    CallAt(Setup(config, inputs, ctx), SetupInputs, deploy, i);
  }

  /** Every resource is named the config's name (as a string) + its fixed infix +
      its resource id, and is deployed in the configured region. */
  lemma StepNameAndRegion(config: Settings, inputs: map<string, Value>, ctx: Context, outs: seq<map<string, Value>>)
    requires |outs| < 5
    ensures var stepInputs := StepInputs(config, inputs, ctx, outs);
            var c := ApplyOrder[|outs|];
            "name" in stepInputs && stepInputs["name"] == Str(config.nameText + Infix(c) + ctx.ids.For(c))
            && "region" in stepInputs && stepInputs["region"] == config.region
  {
  }

  /** Every resource `default` deploys is named the config's name + its fixed infix
      + its resource id, and deployed in the configured region. */
  lemma ResourceNames(config: Settings, inputs: map<string, Value>, ctx: Context, deploy: Deployer, i: nat)
    requires i < 5 && i < |DeployFrom([], config, inputs, ctx, deploy, []).trace|
    ensures var call := DeployFrom([], config, inputs, ctx, deploy, []).trace[i];
            call.DeployCall? && call.component == ApplyOrder[i]
            && "name" in call.inputs && "region" in call.inputs
            && call.inputs["name"] == Str(config.nameText + Infix(ApplyOrder[i]) + ctx.ids.For(ApplyOrder[i]))
            && call.inputs["region"] == config.region
  {
    DeployCallAt(config, inputs, ctx, deploy, i);
    var all := Answers(Setup(config, inputs, ctx), SetupInputs, deploy, []);
    StepNameAndRegion(config, inputs, ctx, all[..i]);
  }

  /** The role's inputs carry the resolved policy and the lambda service
      principal. */
  lemma RoleInputsPolicy(config: Settings, ids: ResourceIds)
    ensures var roleInputs := RoleInputs(config, ids);
            "policy" in roleInputs && roleInputs["policy"] == config.policy
            && "service" in roleInputs && roleInputs["service"] == Str("lambda.amazonaws.com")
  {
  }

  /** The role receives the resolved policy (`getPolicy(inputs.permissions)`, by
      `PolicyOfInputs`) and the lambda service principal. */
  lemma RolePolicy(config: Settings, inputs: map<string, Value>, ctx: Context, deploy: Deployer)
    requires |DeployFrom([], config, inputs, ctx, deploy, []).trace| >= 2
    ensures var call := DeployFrom([], config, inputs, ctx, deploy, []).trace[1];
            call.DeployCall? && call.component == Role
            && "policy" in call.inputs && call.inputs["policy"] == config.policy
            && "service" in call.inputs && call.inputs["service"] == Str("lambda.amazonaws.com")
  {
    DeployCallAt(config, inputs, ctx, deploy, 1);
    RoleInputsPolicy(config, ctx.ids);
  }

  /** The lambda's memory, timeout, env and description fall back to 896, 10, `{}`
      and "A function for the <name> process component" whenever the input is
      missing or falsy (0 and '' included); it receives the role's whole output
      record, the bucket's name and the configured code path. */
  lemma LambdaFallbacks(config: Settings, inputs: map<string, Value>, ctx: Context,
                        bucketOutputs: map<string, Value>, roleOutputs: map<string, Value>)
    ensures var lambdaInputs := LambdaInputs(config, inputs, ctx, bucketOutputs, roleOutputs);
            var memory := Prop(inputs, "memory");
            var timeout := Prop(inputs, "timeout");
            var env := Prop(inputs, "env");
            var description := Prop(inputs, "description");
            {"memory", "timeout", "env", "description", "role", "bucket", "code"} <= lambdaInputs.Keys
            && lambdaInputs["memory"] == (if Truthy(memory) then memory else Num(896))
            && lambdaInputs["timeout"] == (if Truthy(timeout) then timeout else Num(10))
            && lambdaInputs["env"] == (if Truthy(env) then env else Obj(map[]))
            && lambdaInputs["description"]
               == (if Truthy(description) then description
                   else Str("A function for the " + config.nameText + " process component"))
            && lambdaInputs["role"] == Obj(roleOutputs)
            && lambdaInputs["bucket"] == Prop(bucketOutputs, "name")
            && lambdaInputs["code"] == config.code
  {
  }

  /** In `default`'s run the third call deploys the lambda with the inputs
      `LambdaInputs` builds from the answers to the bucket's and the role's calls;
      `LambdaFallbacks` states what those inputs hold. */
  lemma LambdaFallbacksAndWiring(config: Settings, inputs: map<string, Value>, ctx: Context, deploy: Deployer)
    requires |DeployFrom([], config, inputs, ctx, deploy, []).trace| >= 3
    ensures var run := DeployFrom([], config, inputs, ctx, deploy, []);
            var call := run.trace[2];
            run.trace[0].DeployCall? && deploy(run.trace[0].component, run.trace[0].inputs).Ok?
            && run.trace[1].DeployCall? && deploy(run.trace[1].component, run.trace[1].inputs).Ok?
            && call.DeployCall? && call.component == Lambda
            && call.inputs == LambdaInputs(config, inputs, ctx, OutputOf(deploy, run.trace[0]), OutputOf(deploy, run.trace[1]))
  {
    DeployCallAt(config, inputs, ctx, deploy, 2);
  }

  /** The subscription's inputs subscribe the lambda's ARN, over the 'lambda'
      protocol, to the configured topic. */
  lemma SubscriptionInputsWiring(config: Settings, ids: ResourceIds, lambdaOutputs: map<string, Value>)
    ensures var subscriptionInputs := SnsSubscriptionInputs(config, ids, lambdaOutputs);
            {"endpoint", "topic", "protocol"} <= subscriptionInputs.Keys
            && subscriptionInputs["endpoint"] == Prop(lambdaOutputs, "arn")
            && subscriptionInputs["topic"] == config.topic
            && subscriptionInputs["protocol"] == Str("lambda")
  {
  }

  /** In `default`'s run the subscription subscribes the ARN the lambda's call
      answered, over the 'lambda' protocol, to the configured topic. */
  lemma SubscriptionWiring(config: Settings, inputs: map<string, Value>, ctx: Context, deploy: Deployer)
    requires |DeployFrom([], config, inputs, ctx, deploy, []).trace| >= 5
    ensures var run := DeployFrom([], config, inputs, ctx, deploy, []);
            var call := run.trace[4];
            run.trace[2].DeployCall? && deploy(run.trace[2].component, run.trace[2].inputs).Ok?
            && call.DeployCall? && call.component == SnsSubscription
            && {"endpoint", "topic", "protocol"} <= call.inputs.Keys
            && call.inputs["endpoint"] == Prop(OutputOf(deploy, run.trace[2]), "arn")
            && call.inputs["topic"] == config.topic
            && call.inputs["protocol"] == Str("lambda")
  {
    DeployCallAt(config, inputs, ctx, deploy, 4);
    var all := Answers(Setup(config, inputs, ctx), SetupInputs, deploy, []);
    SubscriptionInputsWiring(config, ctx.ids, all[2]);
  }

  /** A successful run returns the bucket's name and the ARNs of the other four,
      each taken from the output of its own call. */
  lemma ReturnedOutputs(config: Settings, inputs: map<string, Value>, ctx: Context, deploy: Deployer)
    requires DeployFrom([], config, inputs, ctx, deploy, []).result.Ok?
    ensures var run := DeployFrom([], config, inputs, ctx, deploy, []);
            |run.trace| == 6
            && (forall i | 0 <= i < 5 :: run.trace[i].DeployCall? && deploy(run.trace[i].component, run.trace[i].inputs).Ok?)
            && run.result.value
               == OutputRecord(Prop(OutputOf(deploy, run.trace[0]), "name"),
                               Prop(OutputOf(deploy, run.trace[1]), "arn"),
                               Prop(OutputOf(deploy, run.trace[2]), "arn"),
                               Prop(OutputOf(deploy, run.trace[3]), "arn"),
                               Prop(OutputOf(deploy, run.trace[4]), "arn"))
  {
    DeployFromIsRunFrom([], config, inputs, ctx, deploy, []);
    RunReturns(Setup(config, inputs, ctx), SetupInputs, deploy);
  }

  /** Each deployment's inputs depend only on outputs of earlier deployments: two
      remote worlds that answer the first `k` calls alike receive the same `k`-th
      call. */
  lemma InputsUseOnlyEarlierOutputs(config: Settings, inputs: map<string, Value>, ctx: Context,
                                    d1: Deployer, d2: Deployer, k: nat)
    requires k < |DeployFrom([], config, inputs, ctx, d1, []).trace| && k < 5
    requires forall j | 0 <= j < k ::
               var call := DeployFrom([], config, inputs, ctx, d1, []).trace[j];
               call.DeployCall? && d1(call.component, call.inputs) == d2(call.component, call.inputs)
    ensures k < |DeployFrom([], config, inputs, ctx, d2, []).trace|
    ensures DeployFrom([], config, inputs, ctx, d2, []).trace[k] == DeployFrom([], config, inputs, ctx, d1, []).trace[k]
  {
    DeployFromIsRunFrom([], config, inputs, ctx, d1, []);
    DeployFromIsRunFrom([], config, inputs, ctx, d2, []);
    RunUsesOnlyEarlierAnswers(Setup(config, inputs, ctx), SetupInputs, d1, d2, k);
  }

  /* ---------------------------------------------------------------------------
     Removal
     --------------------------------------------------------------------------- */

  /** The removal calls of a list of components, one per component in its order. */
  function RemoveCalls(order: seq<Component>): seq<Call>
  {
    if order == [] then [] else [RemoveCall(order[0])] + RemoveCalls(order[1..])
  }

  /** The `i`-th removal call removes the `i`-th component. */
  lemma {:induction false} RemoveCallsAt(order: seq<Component>)
    ensures |RemoveCalls(order)| == |order|
    ensures forall i | 0 <= i < |order| :: RemoveCalls(order)[i] == RemoveCall(order[i])
  {
    if order != [] {
      RemoveCallsAt(order[1..]);
    }
  }

  /** How many components of `order`, from the first on, are removed before a
      removal fails. */
  function Removed(order: seq<Component>, removal: Remover): (k: nat)
    ensures k <= |order|
    ensures forall i | 0 <= i < k :: removal(order[i]).Ok?
    ensures k < |order| ==> removal(order[k]).Err?
  {
    if order == [] || removal(order[0]).Err? then 0
    else 1 + Removed(order[1..], removal)
  }

  /** Removal goes through `order` until a removal fails: if none fails, every
      component is removed in order, the state saved and `{}` returned; otherwise
      the components up to and including the first failing one are removed, and
      the run fails with its error. */
  lemma {:induction false} RemoveAllStops(before: seq<Call>, order: seq<Component>, removal: Remover)
    ensures var k := Removed(order, removal);
            var run := RemoveAll(before, order, removal);
            (k == |order| ==> run == Run(before + RemoveCalls(order) + [SaveCall], Ok(map[])))
            && (k < |order| ==> run == Run(before + RemoveCalls(order[..k + 1]), Err(removal(order[k]).error)))
    decreases |order|
  {
    if order != [] {
      var call := RemoveCall(order[0]);
      if removal(order[0]).Ok? {
        RemoveAllStops(before + [call], order[1..], removal);
        var k := Removed(order[1..], removal);
        if k == |order| - 1 {
          assert RemoveCalls(order) == [call] + RemoveCalls(order[1..]);
        } else {
          assert order[1..][..k + 1] == order[..k + 2][1..];
          assert RemoveCalls(order[..k + 2]) == [call] + RemoveCalls(order[..k + 2][1..]);
        }
      } else {
        assert RemoveCalls(order[..1]) == [call];
      }
    }
  }

  /** `remove` removes role, bucket, lambda, table, subscription: the same five
      components as `default` deploys, but not in reverse order (the role goes
      before the bucket, and the subscription, deployed last, is removed last). */
  lemma RemoveOrderIsNotReverse()
    ensures multiset(RemoveOrder) == multiset(ApplyOrder)
    ensures RemoveOrder != seq(5, i requires 0 <= i < 5 => ApplyOrder[4 - i])
    ensures RemoveOrder[0] == Role && RemoveOrder[4] == ApplyOrder[4]
  {
    assert seq(5, i requires 0 <= i < 5 => ApplyOrder[4 - i])[0] == SnsSubscription;
  }

  /** A successful `remove` removes all five components in its order, then saves;
      a failed one stops at the first failing removal, and never saves. */
  lemma RemoveRunShape(removal: Remover)
    ensures var run := RemoveAll([], RemoveOrder, removal);
            (run.result.Ok? <==> forall c | c in RemoveOrder :: removal(c).Ok?)
            && (run.result.Ok? ==>
                  run.trace == [RemoveCall(Role), RemoveCall(Bucket), RemoveCall(Lambda), RemoveCall(Dynamodb),
                                RemoveCall(SnsSubscription), SaveCall])
            && (run.result.Err? ==>
                  1 <= |run.trace| <= 5 && SaveCall !in run.trace
                  && removal(RemoveOrder[|run.trace| - 1]).Err?
                  && run.result == Err(removal(RemoveOrder[|run.trace| - 1]).error)
                  && (forall i | 0 <= i < |run.trace| - 1 :: removal(RemoveOrder[i]).Ok?)
                  && forall i | 0 <= i < |run.trace| :: run.trace[i] == RemoveCall(RemoveOrder[i]))
  {
    RemoveAllStops([], RemoveOrder, removal);
    var k := Removed(RemoveOrder, removal);
    var run := RemoveAll([], RemoveOrder, removal);
    if k == 5 {
      assert run.trace == [] + RemoveCalls(RemoveOrder) + [SaveCall];
    } else {
      assert run.trace == [] + RemoveCalls(RemoveOrder[..k + 1]);
      RemoveCallsAt(RemoveOrder[..k + 1]);
      assert RemoveOrder[k] in RemoveOrder;
      assert SaveCall !in run.trace by {
        assert forall i | 0 <= i < |run.trace| :: run.trace[i].RemoveCall?;
      }
    }
  }
}
