/**
 * Plan selection on the register page (services/ui/src/pages/RegisterPage.tsx).
 *
 * The page starts on the Basic plan. The `plan` query parameter selects a
 * plan only when it names one of the three exactly; clicking a plan card
 * selects that card. Every plan but Basic requires payment, which shows the
 * required card fields and labels the submit button "Pay now". Submitting
 * registers nothing: it always raises the same modal warning.
 */
module RegisterPage {
  import opened Wrappers
  import Alerts
  import LandingPage

  datatype Plan = Basic | Pro | Enterprise

  /** The plan cards, in order. */
  const Plans: seq<Plan> := [Basic, Pro, Enterprise]

  const NotReadyMessage: string := "We aren't quite ready for you yet! Stay tuned for our launch."

  function PlanName(p: Plan): string {
    match p
    case Basic => "Basic"
    case Pro => "Pro"
    case Enterprise => "Enterprise"
  }

  /** The `plan` value as a plan: only the exact names are accepted. */
  function ParsePlan(param: string): (r: Option<Plan>)
    ensures r.Some? ==> PlanName(r.value) == param
    ensures forall p :: PlanName(p) == param ==> r == Some(p)
  {
    if param == "Basic" then Some(Basic)
    else if param == "Pro" then Some(Pro)
    else if param == "Enterprise" then Some(Enterprise)
    else None
  }

  /** The effect on `searchParams`: `planParam` is `searchParams.get("plan")`. */
  function PlanFromQuery(planParam: Option<string>, current: Plan): (r: Plan)
    ensures r != current ==> planParam.Some? && PlanName(r) == planParam.value
    ensures forall p :: planParam == Some(PlanName(p)) ==> r == p
  {
    if planParam.Some? && planParam.value != "" && ParsePlan(planParam.value).Some? then
      ParsePlan(planParam.value).value
    else
      current
  }

  /** Every plan name reads back as its plan. */
  lemma PlanNameRoundTrip(p: Plan)
    ensures ParsePlan(PlanName(p)) == Some(p)
  {
  }

  /** An absent parameter, or any value other than a plan name, leaves the
      selection alone. */
  lemma UnknownParamKeepsPlan(planParam: Option<string>, current: Plan)
    requires planParam.None? || ParsePlan(planParam.value).None?
    ensures PlanFromQuery(planParam, current) == current
  {
  }

  // ---------------------------------------------------------------------
  // Links from the landing page
  // ---------------------------------------------------------------------

  const RegisterPlanPrefix: string := "/auth/register?plan="

  /** The `plan` parameter of a link to the register page. */
  function PlanParamOf(link: string): Option<string> {
    if |link| >= |RegisterPlanPrefix| && link[..|RegisterPlanPrefix|] == RegisterPlanPrefix then
      Some(link[|RegisterPlanPrefix|..])
    else
      None
  }

  /** Every "Choose plan" link of the landing page carries a plan name this
      page accepts, and selects the plan of the card in the same position. */
  lemma LandingLinksAccepted()
    ensures |LandingPage.PricingTierNames| == |Plans|
    ensures forall i | 0 <= i < |Plans| ::
      PlanParamOf(LandingPage.PlanLink(LandingPage.PricingTierNames[i])) == Some(LandingPage.PricingTierNames[i])
      && ParsePlan(LandingPage.PricingTierNames[i]) == Some(Plans[i])
  {
    forall i | 0 <= i < |Plans|
      ensures PlanParamOf(LandingPage.PlanLink(LandingPage.PricingTierNames[i])) == Some(LandingPage.PricingTierNames[i])
    {
      var link := LandingPage.PlanLink(LandingPage.PricingTierNames[i]);
      assert link[..|RegisterPlanPrefix|] == RegisterPlanPrefix;
      assert link[|RegisterPlanPrefix|..] == LandingPage.PricingTierNames[i];
    }
  }

  // ---------------------------------------------------------------------
  // Payment
  // ---------------------------------------------------------------------

  /** `requiresPayment`: the selected plan's name is not "Basic". */
  function RequiresPayment(p: Plan): (r: bool)
    ensures r <==> PlanName(p) != "Basic"
    ensures r <==> p in Plans[1..]
  {
    p != Basic
  }

  /** The submit button's label. */
  function SubmitLabel(p: Plan): (text: string)
    ensures text == "Pay now" <==> RequiresPayment(p)
    ensures text == "Register" <==> !RequiresPayment(p)
  {
    if RequiresPayment(p) then "Pay now" else "Register"
  }

  /** A card input: its id, `maxLength` and `required` flag. */
  datatype CardField = CardField(id: string, maxLength: nat, required: bool)

  /** The card inputs the form renders for plan `p`. */
  function CardFields(p: Plan): (fields: seq<CardField>)
    ensures fields != [] <==> p != Basic
    ensures forall f | f in fields :: f.required
  {
    if RequiresPayment(p) then
      [CardField("cardNumber", 19, RequiresPayment(p)),
       CardField("cardExpiry", 5, RequiresPayment(p)),
       CardField("cardCvc", 4, RequiresPayment(p))]
    else
      []
  }

  /** The card fields appear exactly when the button says "Pay now"; without
      them it says "Register". */
  lemma CardFieldsIffPayNow(p: Plan)
    ensures CardFields(p) != [] <==> SubmitLabel(p) == "Pay now"
    ensures CardFields(p) == [] <==> SubmitLabel(p) == "Register"
  {
  }

  // ---------------------------------------------------------------------
  // The form
  // ---------------------------------------------------------------------

  datatype Form = Form(
    email: string,
    password: string,
    confirmPassword: string,
    selectedPlan: Plan,
    cardNumber: string,
    cardExpiry: string,
    cardCvc: string)

  function InitialForm(): (f: Form)
    ensures f.selectedPlan == Basic && SubmitLabel(f.selectedPlan) == "Register" && CardFields(f.selectedPlan) == []
  {
    Form("", "", "", Basic, "", "", "")
  }

  /** Clicking the card of `p`. */
  function SelectPlan(f: Form, p: Plan): (r: Form)
    ensures r.selectedPlan == p
    ensures r.(selectedPlan := f.selectedPlan) == f
  {
    f.(selectedPlan := p)
  }

  /** The query effect applied to the form: only the plan may change. */
  function ApplyQuery(f: Form, planParam: Option<string>): (r: Form)
    ensures r.(selectedPlan := f.selectedPlan) == f
    ensures r.selectedPlan != f.selectedPlan ==> planParam == Some(PlanName(r.selectedPlan))
  {
    f.(selectedPlan := PlanFromQuery(planParam, f.selectedPlan))
  }

  /** `handleSubmit`: whatever the form holds, one modal warning is shown
      (under the id `showAlert` draws) and nothing is registered. */
  method HandleSubmit(provider: Alerts.AlertProvider, form: Form, id: string)
    requires provider.Valid()
    modifies provider
    ensures provider.Valid()
    ensures provider.alerts == old(provider.alerts) + [Alerts.Alert(id, NotReadyMessage, Alerts.Warning, true)]
    ensures provider.timers == old(provider.timers)
  {
    provider.ShowAlert(NotReadyMessage, Some(Alerts.Warning), Some(true), id);
  }
}
