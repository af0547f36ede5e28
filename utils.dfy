/** The helpers of utils.js: the defaults copy and the permission-to-policy resolver. */
module Utils {
  import opened Js

  /* ---------------------------------------------------------------------------
     getDefaults
     --------------------------------------------------------------------------- */

  /** A structural deep copy, as ramda's `clone` makes of plain data: arrays and
      objects are rebuilt element by element, primitives are copied as they are. */
  function Clone(v: Value): Value
    decreases v
  {
    match v
    case List(items) => List(seq(|items|, i requires 0 <= i < |items| => Clone(items[i])))
    case Obj(props) => Obj(map k | k in props :: Clone(props[k]))
    case _ => v
  }

  /** Copying rebuilds an equal value: values have no identity, only structure. */
  lemma {:induction false} CloneIsIdentity(v: Value)
    ensures Clone(v) == v
    decreases v
  {
    match v
    case List(items) =>
      forall i | 0 <= i < |items|
        ensures Clone(items[i]) == items[i]
      {
        CloneIsIdentity(items[i]);
      }
    case Obj(props) =>
      forall k | k in props
        ensures Clone(props[k]) == props[k]
      {
        CloneIsIdentity(props[k]);
      }
      assert Clone(v).props == props;
    case _ =>
  }

  /** `getDefaults({ defaults })`: a fresh copy of the defaults, equal to them. */
  function GetDefaults(defaults: Value): (r: Value)
    ensures r == defaults
  {
    CloneIsIdentity(defaults);
    Clone(defaults)
  }

  /* ---------------------------------------------------------------------------
     getPolicy
     --------------------------------------------------------------------------- */

  const AdministratorAccessArn := "arn:aws:iam::aws:policy/AdministratorAccess"
  const PolicyVersion := "2012-10-17"

  /** The managed-policy reference `{ arn: <AdministratorAccess> }`. */
  function AdminReference(): Value
  {
    Obj(map["arn" := Str(AdministratorAccessArn)])
  }

  /** The statement `{ Action: action, Effect: 'Allow', Resource: '*' }`. */
  function AllowStatement(action: Value): Value
  {
    Obj(map["Action" := action, "Effect" := Str("Allow"), "Resource" := Str("*")])
  }

  /** The inline document `{ Version: '2012-10-17', Statement: [AllowStatement(action)] }`. */
  function InlineDocument(action: Value): Value
  {
    Obj(map["Version" := Str(PolicyVersion), "Statement" := List([AllowStatement(action)])])
  }

  /** The actions of the default policy: the table-access and log-access wildcards. */
  const DefaultActions := List([Str("dynamodb:*"), Str("logs:*")])

  /** The policy returned when no other branch applies. */
  function DefaultDocument(): Value
  {
    InlineDocument(DefaultActions)
  }

  /** A plain object whose own `length` property is the string "undefined": the only
      truthy input for which the `.length !== 'undefined'` test is false. */
  predicate LengthIsUndefinedString(v: Value)
  {
    v.Obj? && "length" in v.props && v.props["length"] == Str("undefined")
  }

  /** `getPolicy(permissions)`, as the if / else-if chain is written. The second test
      compares the `length` property (a number, or undefined) against the STRING
      'undefined', so it only fails for an object that carries that very string. */
  function GetPolicy(permissions: Value): (r: Value)
    ensures permissions == Str("admin") ==> r == AdminReference()
    ensures Truthy(permissions) && permissions != Str("admin") && !LengthIsUndefinedString(permissions)
            ==> r == InlineDocument(permissions)
    ensures permissions == Null || LengthIsUndefinedString(permissions) ==> r == permissions
    ensures !Truthy(permissions) && permissions != Null ==> r == DefaultDocument()
  {
    if permissions == Str("admin") then
      AdminReference()
    else if Truthy(permissions) && Length(permissions) != Str("undefined") then
      InlineDocument(permissions)
    else if TypeOf(permissions) == "object" then
      permissions
    else
      DefaultDocument()
  }

  /** The shape of every document `getPolicy` builds itself: version 2012-10-17 and
      exactly one statement, which allows `action` on every resource. */
  predicate IsInlineDocument(r: Value, action: Value)
  {
    r.Obj? && r.props.Keys == {"Version", "Statement"}
    && r.props["Version"] == Str(PolicyVersion)
    && r.props["Statement"].List? && |r.props["Statement"].items| == 1
    && var st := r.props["Statement"].items[0];
       st.Obj? && st.props.Keys == {"Action", "Effect", "Resource"}
       && st.props["Action"] == action
       && st.props["Effect"] == Str("Allow")
       && st.props["Resource"] == Str("*")
  }

  /** A value never occurs inside the document built around it. */
  lemma InlineDocumentIsNotItsAction(action: Value)
    ensures InlineDocument(action) != action
  {
    var st := AllowStatement(action);
    var list := List([st]);
    var doc := InlineDocument(action);
    assert st.props["Action"] == action;
    assert action < st;
    assert list.items[0] == st;
    assert st < list;
    assert doc.props["Statement"] == list;
    assert list < doc;
  }

  /** The admin reference is returned exactly for the string "admin": the comparison
      is strict, so "Admin", ["admin"] and the like never obtain it. */
  lemma AdminExactly(permissions: Value)
    ensures GetPolicy(permissions) == AdminReference() <==> permissions == Str("admin")
    ensures GetPolicy(Str("Admin")) == InlineDocument(Str("Admin"))
  {
    assert "Version" !in AdminReference().props;
    assert "length" !in AdminReference().props;
    assert "Version" in InlineDocument(permissions).props;
    assert "Version" in DefaultDocument().props;
  }

  /** The input is wrapped as the Action of an inline statement exactly when it is
      truthy, not the string "admin", and not an object whose `length` is the string
      "undefined". Every array (the empty one included), every other string, every
      non-zero number, true, and every ordinary object (a complete policy document
      too) is wrapped. */
  lemma WrappedExactly(permissions: Value)
    ensures GetPolicy(permissions) == InlineDocument(permissions)
            <==> Truthy(permissions) && permissions != Str("admin") && !LengthIsUndefinedString(permissions)
  {
    InlineDocumentIsNotItsAction(permissions);
    if !Truthy(permissions) && permissions != Null {
      assert InlineDocument(permissions).props["Statement"].items[0].props["Action"] == permissions;
      assert DefaultDocument().props["Statement"].items[0].props["Action"] == DefaultActions;
    }
  }

  /** The input itself is returned exactly for null (falsy, yet of type "object") and
      for an object whose own `length` property is the string "undefined". */
  lemma ReturnedExactly(permissions: Value)
    ensures GetPolicy(permissions) == permissions
            <==> permissions == Null || LengthIsUndefinedString(permissions)
  {
    InlineDocumentIsNotItsAction(permissions);
  }

  /** The default document is returned for every falsy input but null, that is for
      undefined, false, 0, NaN and ''. */
  lemma DefaultForFalsy(permissions: Value)
    requires permissions in {Undefined, Bool(false), Num(0), NaN, Str("")}
    ensures GetPolicy(permissions) == DefaultDocument()
    ensures IsInlineDocument(GetPolicy(permissions), List([Str("dynamodb:*"), Str("logs:*")]))
  {
  }

  /** Every document `getPolicy` builds (that is, whatever it returns other than the
      admin reference and the input itself) is an inline document granting either the
      input or the default actions. */
  lemma BuiltDocumentsAreInline(permissions: Value)
    ensures var r := GetPolicy(permissions);
            r != AdminReference() && r != permissions ==>
              IsInlineDocument(r, permissions) || IsInlineDocument(r, DefaultActions)
  {
  }

  /** The four outcomes of `getPolicy`, named by the branch that produces them. */
  datatype Outcome = AdminBranch | WrappedBranch | ReturnedBranch | DefaultBranch

  /** Which outcome an input obtains, stated on the input's JavaScript kind rather than
      on the code's tests. */
  function Classify(permissions: Value): Outcome
  {
    if permissions == Str("admin") then AdminBranch
    else if permissions == Null || LengthIsUndefinedString(permissions) then ReturnedBranch
    else if Truthy(permissions) then WrappedBranch
    else DefaultBranch
  }

  /** The result an outcome stands for. */
  function OutcomeValue(o: Outcome, permissions: Value): Value
  {
    match o
    case AdminBranch => AdminReference()
    case WrappedBranch => InlineDocument(permissions)
    case ReturnedBranch => permissions
    case DefaultBranch => DefaultDocument()
  }

  /** `getPolicy` is total, and every input obtains exactly the outcome its kind
      selects: the four classes partition the JavaScript values. */
  lemma {:induction false} GetPolicyTotal(permissions: Value)
    ensures GetPolicy(permissions) == OutcomeValue(Classify(permissions), permissions)
    ensures Classify(permissions) == AdminBranch <==> permissions == Str("admin")
    ensures Classify(permissions) == ReturnedBranch <==> permissions == Null || LengthIsUndefinedString(permissions)
    ensures Classify(permissions) == WrappedBranch
            <==> Truthy(permissions) && permissions != Str("admin") && !LengthIsUndefinedString(permissions)
    ensures Classify(permissions) == DefaultBranch
            <==> permissions in {Undefined, Bool(false), Num(0), NaN, Str("")}
  {
    FalsyValues(permissions);
  }
}
