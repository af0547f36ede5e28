# AwsProcess: a Dafny model

A model of the `AwsProcess` serverless component of DaySmart/aws-process-component and of
its helpers, with proofs of what it promises. The model consists of four files:

- `js.dfy` (module `Js`): the part of JavaScript's value semantics the component uses.
  This covers the shapes of values, truthiness (`if (x)`, `x || y`), `typeof`, reading
  `.length`, and the string conversion `+` applies to the deployment name.
- `utils.dfy` (module `Utils`): `getDefaults` and `getPolicy` from `utils.js`. `getPolicy`
  resolves a permission hint into an IAM policy: the AdministratorAccess reference, an
  inline document around the hint, the hint itself, or the default document granting
  `dynamodb:*` and `logs:*`.
- `serverless.dfy` (module `Serverless`): `serverless.js`, which has these parts:
  - the `defaults` record and the `mergeDeepRight` that lays the inputs over it;
  - the inputs built for each of the five remote components: S3 bucket, IAM role,
    lambda, DynamoDB table and SNS subscription;
  - the class `AwsProcess`, with its persisted `state` and a trace of the calls it makes,
    and its methods `Default` (the `default` deploy) and `Remove`.

  The class's calls are proved against two pure run functions: `DeployFrom` (used by
  `DeployRun`) and `RemoveAll`.
- `serverless_properties.dfy` (module `ServerlessProperties`): the properties of those
  runs. Each run lemma is stated for any `Settings`. `SettingsOfInputs` and
  `PolicyOfInputs` tie `Settings` back to the raw inputs. The properties cover:
  - the deploy order;
  - the abort on the first rejected deployment;
  - the name and region of every resource;
  - the role's policy;
  - the lambda's fallbacks and its wiring to the bucket and the role;
  - the subscription's wiring to the lambda;
  - the returned outputs;
  - each call's independence from later answers;
  - the removal order and its abort.

The remote components (`@serverless/aws-s3` and the others) are opaque.
- Deploying a component is a call of a `Deployer` function. It maps a component and its
  inputs to an output record or a rejection.
- Removing a component is a call of a `Remover` function.
- `context.resourceId()` yields a fresh random id for each resource name. The five ids
  are given as a `ResourceIds` value.
- The path of `shim.js` beside the component is a parameter.
- `this.save()` is a `SaveCall` entry in the trace.

A rejected `await` ends the async method with that rejection. It is modelled as an `Err`
result that stops the run: no later component is called, and nothing is saved.

Three places where the code does not do what its comments suggest, or what a reader
might expect:
- `getPolicy`'s third branch is commented "user specified their own policy"
  (`utils.js:34`). Yet it returns an object unchanged only if the object's own `length`
  property is the string `"undefined"`. The test before it, `permissions.length !==
  'undefined'` (`utils.js:21`), compares against a string, not against the type. So every
  other object, a complete policy document included, is wrapped as the `Action` of an
  inline statement. `null` is falsy and of type "object", so it reaches the third branch
  and is returned as it is.
- `remove` removes role, bucket, lambda, table, subscription, in that order
  (`serverless.js:111-120`). This is not the reverse of the deploy order.
- `remove` awaits each removal in turn (`serverless.js:112-120`). A failing removal
  rejects `remove` at once: the later components are not removed, the state is not
  emptied and nothing is saved. Its `inputs` are unused.

## Model

| member | source | states |
|---|---|---|
| Utils.CloneIsIdentity | utils.js:4 | ramda's `clone` of plain data rebuilds a value equal to the original |
| Utils.GetDefaults | utils.js:3-7 | `getDefaults({ defaults })` equals the defaults it copies |
| Utils.GetPolicy | utils.js:15-49 | Four cases: `'admin'` gives the AdministratorAccess reference; a truthy input other than `'admin'` and other than an object whose `length` is the string "undefined" gives an inline document with the input as Action; null and such an object are returned unchanged; every other falsy input gives the default dynamodb/logs document |
| Utils.AdminExactly | utils.js:16-20 | the admin reference is returned if and only if the input is exactly the string "admin" (so "Admin" is wrapped instead) |
| Utils.WrappedExactly | utils.js:21-32 | the input is wrapped if and only if it is truthy, not "admin", and not an object whose `length` is the string "undefined". This includes every array, the empty one too, and every ordinary object |
| Utils.ReturnedExactly | utils.js:33-36 | the input is returned unchanged if and only if it is null or an object whose `length` is the string "undefined" |
| Utils.DefaultForFalsy | utils.js:38-48 | undefined, false, 0, NaN and '' obtain the default document, which has one statement allowing exactly `dynamodb:*` and `logs:*` on `*` |
| Utils.BuiltDocumentsAreInline | utils.js:21-48 | whatever is neither the admin reference nor the input itself is an inline 2012-10-17 document with one Allow statement on `*`, granting the input or the default actions |
| Utils.GetPolicyTotal | utils.js:15-49 | the four branches partition all values: each input's outcome is the one its kind selects, and each outcome is characterised in both directions |
| Serverless.MergeDeepRight | serverless.js:23 | the merge has the keys of both sides; the right side wins unless both sides hold plain objects; keys only on the left keep their value |
| Serverless.MergeFlatIsOverride | serverless.js:23 | over a left side without nested objects, the merge is the right-biased override `left + right` |
| Serverless.Config | serverless.js:14-23 | the config has the keys of the defaults and of the inputs; every given input wins, whatever its value; the other fields are the defaults |
| Serverless.ConfigWithRegionOnly | serverless.js:14-23 | inputs with only a region keep the other three defaults |
| Utils.Clone | utils.js:4 | no contract of its own; `CloneIsIdentity` states that the copy equals the original |
| Serverless.ReadConfig | serverless.js:23-45 | no contract of its own; `SettingsOfInputs` and `PolicyOfInputs` state what it reads from the merged config and the raw inputs |
| Serverless.ResourceName | serverless.js:35-75 | no contract of its own; `StepNameAndRegion` and `ResourceNames` state the names built |
| Serverless.BucketInputs | serverless.js:34-37 | no contract of its own; `StepNameAndRegion` states its name and region |
| Serverless.RoleInputs | serverless.js:41-46 | no contract of its own; `RoleInputsPolicy` and `StepNameAndRegion` state its policy, principal, name and region |
| Serverless.LambdaInputs | serverless.js:50-63 | no contract of its own; `LambdaFallbacks` and `StepNameAndRegion` state its fields |
| Serverless.DynamodbInputs | serverless.js:67-70 | no contract of its own; `StepNameAndRegion` states its name and region |
| Serverless.SnsSubscriptionInputs | serverless.js:74-81 | no contract of its own; `SubscriptionInputsWiring` and `StepNameAndRegion` state its fields |
| Serverless.StepInputs | serverless.js:34-81 | no contract of its own; it picks the builder of the next component, which `DeployCallAt`, `ResourceNames`, `RolePolicy`, `LambdaFallbacksAndWiring` and `SubscriptionWiring` rely on |
| Serverless.Outputs | serverless.js:84-88 | no contract of its own; `ReturnedOutputs` states that a successful run returns it, built from each call's answer |
| Serverless.OutputRecord | serverless.js:84-95 | no contract of its own; `AssignOutputFields` states that the five field assignments add it |
| Serverless.DeployFrom | serverless.js:34-99 | no contract of its own; the body of `default` after the merge. `ApplyOrderAndAbort`, `DeployFromExtendsHistory`, `ResourceNames`, `RolePolicy`, `LambdaFallbacksAndWiring`, `SubscriptionWiring`, `ReturnedOutputs` and `InputsUseOnlyEarlierOutputs` specify it; `Provision` is proved against it |
| Serverless.DeployRun | serverless.js:22-99 | no contract of its own; `default(inputs)`, which is `DeployFrom` on the settings read from the merged inputs. `Default` is proved against it |
| Serverless.RemoveAll | serverless.js:111-125 | no contract of its own; `RemoveAllStops` and `RemoveRunShape` specify it; `Remove` is proved against it |
| Serverless.AssignOutputFields | serverless.js:84-95 | assigning the five output fields one by one adds the output record to what was there |
| Serverless.AwsProcess.DeployNext | serverless.js:34-82 | one awaited deployment: the next component in order is called once, with the inputs built for it from the earlier outputs, and the call is recorded; the state is unchanged; the rest of the run is the run after this call |
| Serverless.AwsProcess.DeployAll | serverless.js:34-82 | the five deployments in order, each built from the outputs before it. On success it returns all five outputs, and the run continues from after the fifth call. On a rejection the run has ended with that rejection. The state is unchanged |
| Serverless.AwsProcess.Provision | serverless.js:33-99 | the calls and the result are those of `DeployFrom`; on success the state gains the name and the five output fields; after a rejection the state is unchanged |
| Serverless.AwsProcess.Record | serverless.js:84-97 | the returned outputs are the bucket's name and the other four components' ARNs; the state gets `name` and the same five fields over its old content; the state is saved once |
| Serverless.AwsProcess.Default | serverless.js:22-100 | `default(inputs)` makes exactly the calls of `DeployRun` and returns its result. On success the state is the old state with the config's name and the returned outputs written over it; after a rejection the state is unchanged |
| Serverless.AwsProcess.Remove | serverless.js:102-126 | `remove()` makes exactly the calls of `RemoveAll` in the removal order and returns its result; on success the state is `{}`; after a failed removal the state is unchanged |
| ServerlessProperties.SettingsOfInputs | serverless.js:14-23 | each of name, region, topic and code is read from the inputs when they have the key (even one that is undefined or ''), and from the defaults otherwise |
| ServerlessProperties.PolicyOfInputs | serverless.js:45 | the role's policy is `getPolicy` of the raw `inputs.permissions`, which is the same as `getPolicy` of the merged config's `permissions` |
| ServerlessProperties.DeployFromExtendsHistory | serverless.js:22-100 | a run appends its calls to the earlier history; what it adds and what it returns do not depend on that history |
| ServerlessProperties.ApplyOrderAndAbort | serverless.js:33-97 | bucket, role, lambda, table and subscription are deployed in that order, each only after the previous one succeeded. A successful run has six calls, the last a save. A failed run ends at its first rejected call and returns that rejection |
| ServerlessProperties.StepNameAndRegion | serverless.js:34-81 | the inputs built for each component are named config name + the component's infix + its resource id, and carry the configured region |
| ServerlessProperties.ResourceNames | serverless.js:34-82 | in a run, the i-th call deploys the i-th component, named and placed in a region as `StepNameAndRegion` states |
| ServerlessProperties.RoleInputsPolicy | serverless.js:41-46 | the role's inputs carry the resolved policy and the principal `lambda.amazonaws.com` |
| ServerlessProperties.RolePolicy | serverless.js:41-47 | in a run, the second call deploys the role with the resolved policy and the lambda principal |
| ServerlessProperties.LambdaFallbacks | serverless.js:50-63 | memory, timeout, env and description fall back to 896, 10, `{}` and "A function for the <name> process component" when the input is missing or falsy; the lambda gets the role's whole output record, the bucket's name and the configured code |
| ServerlessProperties.LambdaFallbacksAndWiring | serverless.js:50-64 | in a run, the third call deploys the lambda with exactly the inputs `LambdaInputs` builds from the answers to the bucket's and the role's calls (whose fields `LambdaFallbacks` states) |
| ServerlessProperties.SubscriptionInputsWiring | serverless.js:74-81 | the subscription's inputs carry the lambda's ARN as endpoint, the configured topic, and the protocol 'lambda' |
| ServerlessProperties.SubscriptionWiring | serverless.js:74-82 | in a run, the fifth call deploys the subscription with the ARN from the answer to the lambda's call and the configured topic |
| ServerlessProperties.ReturnedOutputs | serverless.js:84-99 | a successful run returns the bucket's name and the ARNs of role, lambda, table and subscription, each taken from the answer to its own call |
| ServerlessProperties.InputsUseOnlyEarlierOutputs | serverless.js:34-82 | each call's inputs depend only on the answers to earlier calls: two remote worlds that answer the first k calls alike receive the same k-th call |
| ServerlessProperties.RemoveAllStops | serverless.js:111-125 | removal goes through the order until a removal fails. If none fails, every component is removed, the state saved and `{}` returned. Otherwise the run stops at that component and fails with its error |
| ServerlessProperties.RemoveOrderIsNotReverse | serverless.js:111-120 | `remove` removes the same five components as `default` deploys, but not in reverse order: the role goes first, the subscription last |
| ServerlessProperties.RemoveRunShape | serverless.js:102-126 | `remove` succeeds if and only if all five removals succeed. A success makes the five removals in order, then saves. A failure is made of the removals in order up to the first failing one; the earlier ones succeeded, the run fails with that removal's error, and nothing is saved |

## Left out

- `getAccountId` (`utils.js:9-13`, awaited at `serverless.js:24`) is left out. It is a
  network call to AWS STS through `aws-sdk`, and its result is not used. A rejected STS
  call is not modelled either. In the source it makes `default` reject before any
  deployment, with no component called and the state unchanged; the model's `Default`
  goes on to deploy.
- The `this.load(...)` calls are left out. Loading the five child components is the
  framework's business; a failing load is not modelled.
- `this.context.status(...)` progress messages are left out: they are console output
  with no effect on the result.
- `this.save()` is recorded as a `SaveCall` in the trace. Persisting the state is the
  framework's I/O.
- The child components' own behaviour is left out: their deploy and remove logic, and
  their idempotence on a second call. They are represented only by the `Deployer` and
  `Remover` oracles.
- `context.resourceId()` is random per call, so the five ids are inputs of the model.
- `path.join(__dirname, 'shim.js')` is a file-system path, so it is a parameter of the
  model.
- `child_process` and `ramda`'s `isEmpty` and `pick` are imported by
  `serverless.js` but never used by the component.
- `code/index.js`, the handler deployed in the lambda, is not part of this model.
- The JavaScript values cover integers and NaN only: numbers have no fractional part and
  no infinities. String lengths count characters, not UTF-16 code units.
- `ToStr` on numbers: `Num` holds any integer, exactly, and `ToStr` prints all its digits.
  JavaScript numbers are doubles. From 2^53 on they are rounded, and from 10^21 on they
  print in exponent notation. So a numeric `name` that large gives other resource names
  in JavaScript: 2^60 prints as "1152921504606847000" there, but in full in the model.
- `ToStr` on objects: it prints every plain object as "[object Object]", as an object
  with the inherited `toString` does. An object `name` with its own non-function
  `toString` property (for example `{toString: 'x'}`) makes `config.name + '-process-'`
  throw a TypeError in JavaScript (`serverless.js:35`). So `default` rejects before the
  first deployment, whereas the model deploys all five components.
- A failing `this.save()` (`serverless.js:97`, `123`) is not modelled; saving always
  succeeds. In the source it would reject after the state was written: after the name and
  outputs were assigned (`serverless.js:90-95`), or after the state was emptied
  (`serverless.js:122`). The contracts `r.Err? ==> state == old(state)` of `Default` and
  `Remove` rely on this.
- `inputs` is a plain object, a map. The default argument `inputs = {}` is the empty map.
  A `null` input makes ramda throw at `serverless.js:23`; it is excluded by the type.
- `mergeDeepRight` is modelled on plain objects and arrays only. ramda's treatment of
  class instances and of other object kinds is out of scope, since the inputs are plain
  data.
- The remote world's state is folded into the `Deployer` and `Remover` oracles. An oracle
  sees only the component and its inputs, and is one fixed function for the length of a
  run.
- Concurrency is left out. The calls are awaited one after another, so the model is
  sequential.
