/**
 The idempotency keys of paypal_checkout/models.py: strings built from primary keys.

 PayPal deduplicates writes by these strings, so two different operations must never
 share one.  The module proves the ten builders jointly injective.
 */
module RequestIds {
  import opened Digits

  // ---------- colon-separated fields ----------

  predicate ColonFree(s: string) {
    ':' !in s
  }

  function Join(fields: seq<string>): string
    requires |fields| > 0
  {
    if |fields| == 1 then fields[0] else fields[0] + ":" + Join(fields[1..])
  }

  /** The first colon of a joined string ends its first field. */
  lemma FirstFieldSame(a: string, restA: string, b: string, restB: string)
    requires ColonFree(a) && ColonFree(b)
    requires a + ":" + restA == b + ":" + restB
    ensures a == b && restA == restB
  {
    var s := a + ":" + restA;
    assert s[|a|] == ':' && s[|b|] == ':';
    assert forall i :: 0 <= i < |a| ==> s[i] == a[i];
    assert forall i :: 0 <= i < |b| ==> s[i] == b[i];
    assert |a| == |b|;
    assert a == s[..|a|] && b == s[..|b|];
    assert restA == s[|a| + 1..] && restB == s[|b| + 1..];
  }

  /** Two or more fields leave a colon in the joined string. */
  lemma ColonInside(fields: seq<string>)
    requires |fields| > 1
    ensures ':' in Join(fields)
  {
    assert Join(fields)[|fields[0]|] == ':';
  }

  lemma {:induction false} JoinInjective(a: seq<string>, b: seq<string>)
    requires |a| > 0 && |b| > 0
    requires forall f :: f in a ==> ColonFree(f)
    requires forall f :: f in b ==> ColonFree(f)
    requires Join(a) == Join(b)
    ensures a == b
    decreases |a|
  {
    if |a| == 1 && |b| == 1 {
    } else if |a| == 1 {
      assert ColonFree(a[0]);
      ColonInside(b);
      assert false;
    } else if |b| == 1 {
      assert ColonFree(b[0]);
      ColonInside(a);
      assert false;
    } else {
      FirstFieldSame(a[0], Join(a[1..]), b[0], Join(b[1..]));
      JoinInjective(a[1..], b[1..]);
      assert a == [a[0]] + a[1..] && b == [b[0]] + b[1..];
    }
  }

  // ---------- the builders ----------

  function OrderRequestId(order: nat): string { "order:" + Render(order) + ":create" }

  function CaptureRequestId(order: nat, capture: nat): string {
    "order:" + Render(order) + ":capture:" + Render(capture)
  }

  function AuthorizationRequestId(order: nat, authorization: nat): string {
    "order:" + Render(order) + ":authorize:" + Render(authorization)
  }

  function RefundRequestId(order: nat, refund: nat): string {
    "order:" + Render(order) + ":refund:" + Render(refund)
  }

  function VoidRequestId(order: nat, authorization: nat): string {
    "order:" + Render(order) + ":void:" + Render(authorization)
  }

  function ProductRequestId(product: nat): string { "product:" + Render(product) + ":create" }

  function PlanRequestId(plan: nat): string { "plan:" + Render(plan) + ":create" }

  function SubscriptionRequestId(subscription: nat): string {
    "subscription:" + Render(subscription) + ":create"
  }

  function SetupTokenRequestId(token: nat): string { "setup-token:" + Render(token) + ":create" }

  function PaymentTokenRequestId(token: nat): string { "payment-token:" + Render(token) + ":create" }

  /** One write to PayPal: which builder names it, and the primary keys it is named after. */
  datatype Operation =
    | CreateOrder(order: nat)
    | CaptureAttempt(order: nat, pk: nat)
    | AuthorizationAttempt(order: nat, pk: nat)
    | RefundAttempt(order: nat, pk: nat)
    | VoidAuthorization(order: nat, pk: nat)
    | CreateProduct(pk: nat)
    | CreatePlan(pk: nat)
    | CreateSubscription(pk: nat)
    | CreateSetupToken(pk: nat)
    | CreatePaymentToken(pk: nat)

  function RequestId(op: Operation): string {
    match op
    case CreateOrder(o) => OrderRequestId(o)
    case CaptureAttempt(o, pk) => CaptureRequestId(o, pk)
    case AuthorizationAttempt(o, pk) => AuthorizationRequestId(o, pk)
    case RefundAttempt(o, pk) => RefundRequestId(o, pk)
    case VoidAuthorization(o, pk) => VoidRequestId(o, pk)
    case CreateProduct(pk) => ProductRequestId(pk)
    case CreatePlan(pk) => PlanRequestId(pk)
    case CreateSubscription(pk) => SubscriptionRequestId(pk)
    case CreateSetupToken(pk) => SetupTokenRequestId(pk)
    case CreatePaymentToken(pk) => PaymentTokenRequestId(pk)
  }

  /** The colon-separated fields of an operation's key. */
  function Fields(op: Operation): seq<string> {
    match op
    case CreateOrder(o) => ["order", Render(o), "create"]
    case CaptureAttempt(o, pk) => ["order", Render(o), "capture", Render(pk)]
    case AuthorizationAttempt(o, pk) => ["order", Render(o), "authorize", Render(pk)]
    case RefundAttempt(o, pk) => ["order", Render(o), "refund", Render(pk)]
    case VoidAuthorization(o, pk) => ["order", Render(o), "void", Render(pk)]
    case CreateProduct(pk) => ["product", Render(pk), "create"]
    case CreatePlan(pk) => ["plan", Render(pk), "create"]
    case CreateSubscription(pk) => ["subscription", Render(pk), "create"]
    case CreateSetupToken(pk) => ["setup-token", Render(pk), "create"]
    case CreatePaymentToken(pk) => ["payment-token", Render(pk), "create"]
  }

  lemma JoinThree(a: string, b: string, c: string)
    ensures Join([a, b, c]) == a + ":" + (b + ":" + c)
  {
    assert [a, b, c][1..] == [b, c] && [b, c][1..] == [c];
    assert Join([b, c]) == b + ":" + c;
  }

  lemma JoinFour(a: string, b: string, c: string, d: string)
    ensures Join([a, b, c, d]) == a + ":" + (b + ":" + (c + ":" + d))
  {
    assert [a, b, c, d][1..] == [b, c, d];
    JoinThree(b, c, d);
  }

  lemma Reassociate(a: string, b: string, c: string, d: string, e: string)
    ensures (a + b) + c + (b + d) == a + b + (c + b + d)
    ensures (a + b) + c + (b + d + b) + e == a + b + (c + b + (d + b + e))
  {
    var x, y := (a + b) + c + (b + d), a + b + (c + b + d);
    assert x == y;
    var u, v := (a + b) + c + (b + d + b) + e, a + b + (c + b + (d + b + e));
    assert u == v;
  }

  lemma ThreeFields(kind: string, pk: nat)
    ensures (kind + ":") + Render(pk) + ":create" == Join([kind, Render(pk), "create"])
  {
    JoinThree(kind, Render(pk), "create");
    Reassociate(kind, ":", Render(pk), "create", "");
    assert ":create" == ":" + "create";
  }

  lemma FourFields(order: nat, verb: string, pk: nat)
    ensures "order:" + Render(order) + (":" + verb + ":") + Render(pk)
         == Join(["order", Render(order), verb, Render(pk)])
  {
    JoinFour("order", Render(order), verb, Render(pk));
    Reassociate("order", ":", Render(order), verb, Render(pk));
    assert "order:" == "order" + ":";
  }

  predicate OfAttempt(op: Operation) {
    op.CaptureAttempt? || op.AuthorizationAttempt? || op.RefundAttempt? || op.VoidAuthorization?
  }

  lemma AttemptIdIsJoin(op: Operation)
    requires OfAttempt(op)
    ensures RequestId(op) == Join(Fields(op))
  {
    match op
    case CaptureAttempt(o, pk) => FourFields(o, "capture", pk); assert ":" + "capture" + ":" == ":capture:";
    case AuthorizationAttempt(o, pk) => FourFields(o, "authorize", pk); assert ":" + "authorize" + ":" == ":authorize:";
    case RefundAttempt(o, pk) => FourFields(o, "refund", pk); assert ":" + "refund" + ":" == ":refund:";
    case VoidAuthorization(o, pk) => FourFields(o, "void", pk); assert ":" + "void" + ":" == ":void:";
    case _ =>
  }

  lemma ObjectIdIsJoin(op: Operation)
    requires !OfAttempt(op)
    ensures RequestId(op) == Join(Fields(op))
  {
    match op
    case CreateOrder(o) => ThreeFields("order", o); assert "order" + ":" == "order:";
    case CreateProduct(pk) => ThreeFields("product", pk); assert "product" + ":" == "product:";
    case CreatePlan(pk) => ThreeFields("plan", pk); assert "plan" + ":" == "plan:";
    case CreateSubscription(pk) => ThreeFields("subscription", pk); assert "subscription" + ":" == "subscription:";
    case CreateSetupToken(pk) => ThreeFields("setup-token", pk); assert "setup-token" + ":" == "setup-token:";
    case CreatePaymentToken(pk) => ThreeFields("payment-token", pk); assert "payment-token" + ":" == "payment-token:";
    case _ =>
  }

  lemma RequestIdIsJoin(op: Operation)
    ensures RequestId(op) == Join(Fields(op))
  {
    hide *;
    if OfAttempt(op) {
      AttemptIdIsJoin(op);
    } else {
      ObjectIdIsJoin(op);
    }
  }

  lemma FieldsColonFree(op: Operation)
    ensures forall f :: f in Fields(op) ==> ColonFree(f)
  {
  }

  /** Keys collide only when they name the same operation: same builder, same primary keys. */
  lemma RequestIdInjective(a: Operation, b: Operation)
    requires RequestId(a) == RequestId(b)
    ensures a == b
  {
    RequestIdIsJoin(a);
    RequestIdIsJoin(b);
    FieldsColonFree(a);
    FieldsColonFree(b);
    JoinInjective(Fields(a), Fields(b));
    var fa, fb := Fields(a), Fields(b);
    assert fa[0] == fb[0] && fa[1] == fb[1] && fa[2] == fb[2];
    forall m: nat, n: nat | Render(m) == Render(n) ensures m == n {
      RenderInjective(m, n);
    }
    if |fa| == 4 {
      assert fa[3] == fb[3];
    }
  }
}
