/** The AwsProcess component of serverless.js: it merges its inputs over fixed
    defaults, deploys five remote components in a fixed order (bucket, role, lambda,
    table, subscription), feeding earlier outputs into later inputs, records their
    identifiers in its persisted state, and removes the five again.

    The remote components are not modelled: deploying one is a call of the oracle
    `deploy`, removing one a call of the oracle `removal`; both may fail. */
module Serverless {
  import opened Js
  import opened Utils

  /* ---------------------------------------------------------------------------
     Configuration
     --------------------------------------------------------------------------- */

  const DefaultName := "daysmart-service"
  const DefaultRegion := "us-east-1"
  const DefaultTopic := "arn:aws:sns:us-east-1:933922255734:daysmart-service-base-sns-topic-nj9ex4-b8au9pd"
  const DefaultCode := "./code"

  /** The `defaults` record of the component. */
  const Defaults: map<string, Value> :=
    map["name" := Str(DefaultName), "region" := Str(DefaultRegion),
        "topic" := Str(DefaultTopic), "code" := Str(DefaultCode)]

  /** ramda's notion of an object that mergeDeepRight descends into: a plain object
      (arrays are replaced, not merged). */
  predicate IsPlainObject(v: Value)
  {
    v.Obj?
  }

  /** ramda's `mergeDeepRight(left, right)`: every key of either side; where both
      sides hold plain objects they are merged recursively, otherwise the right
      side's value wins wherever the right side has the key. */
  function MergeDeepRight(left: Value, right: Value): (merged: Value)
    requires left.Obj? && right.Obj?
    ensures merged.Obj? && merged.props.Keys == left.props.Keys + right.props.Keys
    ensures forall k | k in right.props && !(k in left.props && IsPlainObject(left.props[k]) && IsPlainObject(right.props[k]))
              :: merged.props[k] == right.props[k]
    ensures forall k | k in left.props && k !in right.props :: merged.props[k] == left.props[k]
    decreases left
  {
    Obj(map k | k in left.props.Keys + right.props.Keys ::
      if k in left.props && k in right.props && IsPlainObject(left.props[k]) && IsPlainObject(right.props[k])
      then MergeDeepRight(left.props[k], right.props[k])
      else if k in right.props then right.props[k]
      else left.props[k])
  }

  /** When the left side holds no plain object, mergeDeepRight is a plain
      right-biased override of fields. */
  lemma MergeFlatIsOverride(left: Value, right: Value)
    requires left.Obj? && right.Obj?
    requires forall k | k in left.props :: !IsPlainObject(left.props[k])
    ensures MergeDeepRight(left, right) == Obj(left.props + right.props)
  {
    assert MergeDeepRight(left, right).props == left.props + right.props;
  }

  /** `config = mergeDeepRight(getDefaults({ defaults }), inputs)`: each field given
      in the inputs (whatever its value, even undefined or '') wins; every other
      field comes from the defaults. */
  function Config(inputs: map<string, Value>): (config: map<string, Value>)
    ensures config.Keys == Defaults.Keys + inputs.Keys
    ensures forall k | k in inputs :: config[k] == inputs[k]
    ensures forall k | k in Defaults && k !in inputs :: config[k] == Defaults[k]
  {
    var defaults := GetDefaults(Obj(Defaults));
    MergeFlatIsOverride(defaults, Obj(inputs));
    MergeDeepRight(defaults, Obj(inputs)).props
  }

  /** Supplying only a region keeps every other default. */
  lemma ConfigWithRegionOnly(region: Value)
    ensures Config(map["region" := region]) == Defaults["region" := region]
  {
  }

  /* ---------------------------------------------------------------------------
     The five resources and their inputs
     --------------------------------------------------------------------------- */

  /** The remote components, one per resource. */
  datatype Component = Bucket | Role | Lambda | Dynamodb | SnsSubscription

  /** The order in which `default` deploys the components. */
  const ApplyOrder: seq<Component> := [Bucket, Role, Lambda, Dynamodb, SnsSubscription]

  /** The order in which `remove` removes them. */
  const RemoveOrder: seq<Component> := [Role, Bucket, Lambda, Dynamodb, SnsSubscription]

  /** The fixed part of each resource's name. */
  function Infix(c: Component): string
  {
    match c
    case Bucket => "-process-"
    case Role => "-process-lambda-role-"
    case Lambda => "-process-lambda-"
    case Dynamodb => "-process-dynamodb-table-"
    case SnsSubscription => "-process-sns-subscription-"
  }

  /** The five values `context.resourceId()` yields, one per resource name built. */
  datatype ResourceIds = ResourceIds(bucket: string, role: string, lambda: string, dynamodb: string, snsSubscription: string)
  {
    function For(c: Component): string
    {
      match c
      case Bucket => bucket
      case Role => role
      case Lambda => lambda
      case Dynamodb => dynamodb
      case SnsSubscription => snsSubscription
    }
  }

  /** What the framework and the file system supply: the resource ids and the path
      of `shim.js` beside the component (`path.join(__dirname, 'shim.js')`). */
  datatype Context = Context(ids: ResourceIds, shimPath: string)

  /** The four fields of the merged config that the component reads; `nameText`,
      the string that `+` makes of the name when a resource name or the description
      is built; and `policy`, the role's policy that `getPolicy` resolves from the
      raw inputs' `permissions`. */
  datatype Settings = Settings(name: Value, nameText: string, region: Value, topic: Value, code: Value, policy: Value)

  /** Reading `config.name`, `config.region`, `config.topic` and `config.code`,
      and resolving `getPolicy(inputs.permissions)`. */
  function ReadConfig(config: map<string, Value>, inputs: map<string, Value>): Settings
  {
    var name := Prop(config, "name");
    Settings(name, ToStr(name), Prop(config, "region"), Prop(config, "topic"), Prop(config, "code"),
             GetPolicy(Prop(inputs, "permissions")))
  }

  /** `config.name + <infix> + context.resourceId()`; `+` turns the name into a string. */
  function ResourceName(config: Settings, c: Component, ids: ResourceIds): Value
  {
    Str(config.nameText + Infix(c) + ids.For(c))
  }

  function BucketInputs(config: Settings, ids: ResourceIds): map<string, Value>
  {
    map["name" := ResourceName(config, Bucket, ids), "region" := config.region]
  }

  /** The role's policy is the one resolved from the raw `inputs.permissions`. */
  function RoleInputs(config: Settings, ids: ResourceIds): map<string, Value>
  {
    map["name" := ResourceName(config, Role, ids),
        "region" := config.region,
        "service" := Str("lambda.amazonaws.com"),
        "policy" := config.policy]
  }

  /** The description used when the inputs give none (or a falsy one). */
  function DefaultDescription(config: Settings): Value
  {
    Str("A function for the " + config.nameText + " process component")
  }

  const DefaultMemory := Num(896)
  const DefaultTimeout := Num(10)

  function LambdaInputs(config: Settings, inputs: map<string, Value>, ctx: Context,
                        bucketOutputs: map<string, Value>, roleOutputs: map<string, Value>): map<string, Value>
  {
    map["name" := ResourceName(config, Lambda, ctx.ids),
        "description" := Or(Prop(inputs, "description"), DefaultDescription(config)),
        "memory" := Or(Prop(inputs, "memory"), DefaultMemory),
        "timeout" := Or(Prop(inputs, "timeout"), DefaultTimeout),
        "runtime" := Str("nodejs8.10"),
        "code" := config.code,
        "role" := Obj(roleOutputs),
        "handler" := Str("shim.handler"),
        "shims" := List([Str(ctx.shimPath)]),
        "env" := Or(Prop(inputs, "env"), Obj(map[])),
        "bucket" := Prop(bucketOutputs, "name"),
        "region" := config.region]
  }

  function DynamodbInputs(config: Settings, ids: ResourceIds): map<string, Value>
  {
    map["name" := ResourceName(config, Dynamodb, ids), "region" := config.region]
  }

  function SnsSubscriptionInputs(config: Settings, ids: ResourceIds,
                                 lambdaOutputs: map<string, Value>): map<string, Value>
  {
    map["name" := ResourceName(config, SnsSubscription, ids),
        "region" := config.region,
        "topic" := config.topic,
        "protocol" := Str("lambda"),
        "endpoint" := Prop(lambdaOutputs, "arn")]
  }

  /** The record `default` returns. */
  function Outputs(bucketOutputs: map<string, Value>, roleOutputs: map<string, Value>,
                   lambdaOutputs: map<string, Value>, dynamodbOutputs: map<string, Value>,
                   snsSubscriptionOutputs: map<string, Value>): map<string, Value>
  {
    OutputRecord(Prop(bucketOutputs, "name"), Prop(roleOutputs, "arn"), Prop(lambdaOutputs, "arn"),
                 Prop(dynamodbOutputs, "arn"), Prop(snsSubscriptionOutputs, "arn"))
  }

  /** The five fields shared by the returned outputs and the persisted state. */
  function OutputRecord(bucket: Value, role: Value, lambda: Value, dynamodb: Value, snsSubscription: Value): map<string, Value>
  {
    map[]["bucket" := bucket]["role" := role]["lambda" := lambda]["dynamodb" := dynamodb]
         ["snsSubscription" := snsSubscription]
  }

  /* ---------------------------------------------------------------------------
     Runs: the calls made and what is returned
     --------------------------------------------------------------------------- */

  /** A call's outcome: a value, or the rejection that an `await` rethrows. */
  datatype Result<T> = Ok(value: T) | Err(error: string)

  /** What the component does to the outside world, in order: deploying or
      removing a remote component, and saving its state. */
  datatype Call =
    | DeployCall(component: Component, inputs: map<string, Value>)
    | RemoveCall(component: Component)
    | SaveCall

  /** How a run ends: the trace of calls made up to then (the earlier history
      included) and the result it returns. */
  datatype Run = Run(trace: seq<Call>, result: Result<map<string, Value>>)

  /** Deploying a component with some inputs yields its output record, or fails. */
  type Deployer = (Component, map<string, Value>) -> Result<map<string, Value>>

  /** Removing a component succeeds or fails. */
  type Remover = Component -> Result<()>

  /** The inputs `default` builds for the next component, the one after the
      components whose outputs `outs` holds: from the config, the raw inputs and
      those earlier outputs only. */
  function StepInputs(config: Settings, inputs: map<string, Value>, ctx: Context,
                      outs: seq<map<string, Value>>): map<string, Value>
    requires |outs| < 5
  {
    if |outs| == 0 then BucketInputs(config, ctx.ids)
    else if |outs| == 1 then RoleInputs(config, ctx.ids)
    else if |outs| == 2 then LambdaInputs(config, inputs, ctx, outs[0], outs[1])
    else if |outs| == 3 then DynamodbInputs(config, ctx.ids)
    else SnsSubscriptionInputs(config, ctx.ids, outs[2])
  }

  /** What `default` does after the calls `before`, once the components whose
      outputs `outs` holds are deployed: the next component is deployed with the
      inputs built for it, and awaited before the one after it is built; the first
      rejected call ends the run with its rejection. After the fifth call the state
      is saved and the outputs are returned. */
  function DeployFrom(before: seq<Call>, config: Settings, inputs: map<string, Value>, ctx: Context,
                      deploy: Deployer, outs: seq<map<string, Value>>): Run
    requires |outs| <= 5
    decreases 5 - |outs|
  {
    if |outs| == 5 then
      Run(before + [SaveCall], Ok(Outputs(outs[0], outs[1], outs[2], outs[3], outs[4])))
    else
      var c := ApplyOrder[|outs|];
      var stepInputs := StepInputs(config, inputs, ctx, outs);
      var trace := before + [DeployCall(c, stepInputs)];
      match deploy(c, stepInputs)
      case Err(e) => Run(trace, Err(e))
      case Ok(o) => DeployFrom(trace, config, inputs, ctx, deploy, outs + [o])
  }

  /** What `default(inputs)` does after the calls `before`. */
  function DeployRun(before: seq<Call>, inputs: map<string, Value>, ctx: Context, deploy: Deployer): Run
  {
    DeployFrom(before, ReadConfig(Config(inputs), inputs), inputs, ctx, deploy, [])
  }

  /** Removing the components of `order` one after another after the calls
      `before`, stopping at the first removal that fails; once all are removed the
      (emptied) state is saved and `{}` returned. */
  function RemoveAll(before: seq<Call>, order: seq<Component>, removal: Remover): Run
    decreases |order|
  {
    if order == [] then Run(before + [SaveCall], Ok(map[]))
    else
      var trace := before + [RemoveCall(order[0])];
      match removal(order[0])
      case Err(e) => Run(trace, Err(e))
      case Ok(_) => RemoveAll(trace, order[1..], removal)
  }

  /** Assigning the five output fields one by one, as `default` does both for the
      returned record and for the state, adds the output record. */
  lemma AssignOutputFields(m: map<string, Value>, bucket: Value, role: Value, lambda: Value,
                           dynamodb: Value, snsSubscription: Value)
    ensures m["bucket" := bucket]["role" := role]["lambda" := lambda]["dynamodb" := dynamodb]
              ["snsSubscription" := snsSubscription]
            == m + OutputRecord(bucket, role, lambda, dynamodb, snsSubscription)
  {
    // each assignment after the merge is the merge of the assignment
    var e0: map<string, Value> := map[];
    var e1 := e0["bucket" := bucket];
    var e2 := e1["role" := role];
    var e3 := e2["lambda" := lambda];
    var e4 := e3["dynamodb" := dynamodb];
    assert m == m + e0;
    assert (m + e0)["bucket" := bucket] == m + e1;
    assert (m + e1)["role" := role] == m + e2;
    assert (m + e2)["lambda" := lambda] == m + e3;
    assert (m + e3)["dynamodb" := dynamodb] == m + e4;
    assert (m + e4)["snsSubscription" := snsSubscription] == m + e4["snsSubscription" := snsSubscription];
  }

  /* ---------------------------------------------------------------------------
     The component object
     --------------------------------------------------------------------------- */

  /** The component instance: its persisted `state` and, standing for its effects
      on the outside world, the trace of remote calls and saves it has made. */
  class AwsProcess {
    var state: map<string, Value>
    var trace: seq<Call>

    constructor (persisted: map<string, Value>)
      ensures state == persisted && trace == []
    {
      state := persisted;
      trace := [];
    }

    /** One awaited deployment of `default`: the next component, the one after those
        whose outputs `outs` holds, is called with the inputs built for it and the
        call is recorded. The run from here on is the one from after this call. */
    method DeployNext(config: Settings, inputs: map<string, Value>, ctx: Context, deploy: Deployer,
                      outs: seq<map<string, Value>>)
      returns (result: Result<map<string, Value>>)
      requires |outs| < 5
      modifies this
      ensures result == deploy(ApplyOrder[|outs|], StepInputs(config, inputs, ctx, outs))
      ensures trace == old(trace) + [DeployCall(ApplyOrder[|outs|], StepInputs(config, inputs, ctx, outs))]
      ensures state == old(state)
      ensures result.Err? ==> DeployFrom(old(trace), config, inputs, ctx, deploy, outs) == Run(trace, Err(result.error))
      ensures result.Ok? ==> DeployFrom(old(trace), config, inputs, ctx, deploy, outs)
                             == DeployFrom(trace, config, inputs, ctx, deploy, outs + [result.value])
    {
      var component := ApplyOrder[|outs|];
      var componentInputs := StepInputs(config, inputs, ctx, outs);
      result := deploy(component, componentInputs);
      trace := trace + [DeployCall(component, componentInputs)];
    }

    /** `default(inputs)`: deploys the five components in order and, once all five
        succeeded, writes the deployment's name and the five identifiers into the
        state, saves it, and returns the identifiers. A rejected call aborts the
        run: no later component is called and the state is left as it was. */
    method Default(inputs: map<string, Value>, ctx: Context, deploy: Deployer)
      returns (r: Result<map<string, Value>>)
      modifies this
      ensures var run := DeployRun(old(trace), inputs, ctx, deploy); trace == run.trace && r == run.result
      ensures r.Ok? ==> state == old(state)["name" := Prop(Config(inputs), "name")] + r.value
      ensures r.Err? ==> state == old(state)
    {
      var config := ReadConfig(Config(inputs), inputs);
      r := Provision(config, inputs, ctx, deploy);
    }

    /** The body of `default` once the config is merged: the five deployments in
        order, then the outputs, the state and the save. */
    method Provision(config: Settings, inputs: map<string, Value>, ctx: Context, deploy: Deployer)
      returns (r: Result<map<string, Value>>)
      modifies this
      ensures var run := DeployFrom(old(trace), config, inputs, ctx, deploy, []); trace == run.trace && r == run.result
      ensures r.Ok? ==> state == old(state)["name" := config.name] + r.value
      ensures r.Err? ==> state == old(state)
    {
      var deployed := DeployAll(config, inputs, ctx, deploy);
      if deployed.Err? { return Err(deployed.error); }
      var outs := deployed.value;
      var outputs := Record(config.name, outs[0], outs[1], outs[2], outs[3], outs[4]);
      r := Ok(outputs);
    }

    /** The five awaited deployments of `default`, bucket, role, lambda, table and
        subscription, each built from the outputs before it; the first rejection
        ends them. On success the outputs of all five are returned, and the run goes
        on from after the fifth call. */
    method DeployAll(config: Settings, inputs: map<string, Value>, ctx: Context, deploy: Deployer)
      returns (deployed: Result<seq<map<string, Value>>>)
      modifies this
      ensures deployed.Ok? ==> |deployed.value| == 5
                               && DeployFrom(old(trace), config, inputs, ctx, deploy, [])
                                  == DeployFrom(trace, config, inputs, ctx, deploy, deployed.value)
      ensures deployed.Err? ==> DeployFrom(old(trace), config, inputs, ctx, deploy, []) == Run(trace, Err(deployed.error))
      ensures state == old(state)
    {
      var outs: seq<map<string, Value>> := [];
      var bucketResult := DeployNext(config, inputs, ctx, deploy, outs);
      if bucketResult.Err? { return Err(bucketResult.error); }
      outs := outs + [bucketResult.value];

      var roleResult := DeployNext(config, inputs, ctx, deploy, outs);
      if roleResult.Err? { return Err(roleResult.error); }
      outs := outs + [roleResult.value];

      var lambdaResult := DeployNext(config, inputs, ctx, deploy, outs);
      if lambdaResult.Err? { return Err(lambdaResult.error); }
      outs := outs + [lambdaResult.value];

      var dynamodbResult := DeployNext(config, inputs, ctx, deploy, outs);
      if dynamodbResult.Err? { return Err(dynamodbResult.error); }
      outs := outs + [dynamodbResult.value];

      var subscriptionResult := DeployNext(config, inputs, ctx, deploy, outs);
      if subscriptionResult.Err? { return Err(subscriptionResult.error); }
      outs := outs + [subscriptionResult.value];
      deployed := Ok(outs);
    }

    /** The end of `default`: the returned outputs are assigned field by field, then
        the state takes the deployment's name and the same five fields, and is saved. */
    method Record(name: Value, bucketOutputs: map<string, Value>, roleOutputs: map<string, Value>,
                  lambdaOutputs: map<string, Value>, dynamodbOutputs: map<string, Value>,
                  subscriptionOutputs: map<string, Value>)
      returns (outputs: map<string, Value>)
      modifies this
      ensures outputs == Outputs(bucketOutputs, roleOutputs, lambdaOutputs, dynamodbOutputs, subscriptionOutputs)
      ensures state == old(state)["name" := name] + outputs
      ensures trace == old(trace) + [SaveCall]
    {
      // outputs.bucket = ..., outputs.role = ..., one field after another
      outputs := map[]["bucket" := Prop(bucketOutputs, "name")]["role" := Prop(roleOutputs, "arn")]
                      ["lambda" := Prop(lambdaOutputs, "arn")]["dynamodb" := Prop(dynamodbOutputs, "arn")]
                      ["snsSubscription" := Prop(subscriptionOutputs, "arn")];
      assert outputs == Outputs(bucketOutputs, roleOutputs, lambdaOutputs, dynamodbOutputs, subscriptionOutputs);

      // this.state.name = config.name, then this.state.bucket = ..., and so on
      AssignOutputFields(state["name" := name], Prop(bucketOutputs, "name"), Prop(roleOutputs, "arn"),
                         Prop(lambdaOutputs, "arn"), Prop(dynamodbOutputs, "arn"), Prop(subscriptionOutputs, "arn"));
      state := state["name" := name]["bucket" := Prop(bucketOutputs, "name")]["role" := Prop(roleOutputs, "arn")]
                    ["lambda" := Prop(lambdaOutputs, "arn")]["dynamodb" := Prop(dynamodbOutputs, "arn")]
                    ["snsSubscription" := Prop(subscriptionOutputs, "arn")];

      trace := trace + [SaveCall];
    }

    /** `remove()`: removes the components in the order role, bucket, lambda,
        table, subscription; once all five succeeded, empties the state, saves it
        and returns `{}`. A failed removal aborts: later components are not
        removed and the state is left as it was. */
    method Remove(removal: Remover) returns (r: Result<map<string, Value>>)
      modifies this
      ensures var run := RemoveAll(old(trace), RemoveOrder, removal); trace == run.trace && r == run.result
      ensures r.Ok? ==> state == map[]
      ensures r.Err? ==> state == old(state)
    {
      var roleResult := removal(Role);
      trace := trace + [RemoveCall(Role)];
      if roleResult.Err? { return Err(roleResult.error); }

      var bucketResult := removal(Bucket);
      trace := trace + [RemoveCall(Bucket)];
      if bucketResult.Err? { return Err(bucketResult.error); }

      var lambdaResult := removal(Lambda);
      trace := trace + [RemoveCall(Lambda)];
      if lambdaResult.Err? { return Err(lambdaResult.error); }

      var dynamodbResult := removal(Dynamodb);
      trace := trace + [RemoveCall(Dynamodb)];
      if dynamodbResult.Err? { return Err(dynamodbResult.error); }

      var subscriptionResult := removal(SnsSubscription);
      trace := trace + [RemoveCall(SnsSubscription)];
      if subscriptionResult.Err? { return Err(subscriptionResult.error); }

      state := map[];
      trace := trace + [SaveCall];
      r := Ok(map[]);
    }
  }
}
