/**
 * The form component: HTML forms only submit GET and POST, so PUT, PATCH and
 * DELETE are sent as POST and flagged for method spoofing.
 */
module Form {

  import opened Wrappers
  import opened PhpValues

  /** The methods that need spoofing, compared after `strtoupper`. */
  predicate IsSimulated(upper: string)
  {
    upper == "PUT" || upper == "PATCH" || upper == "DELETE"
  }

  /** `transformMethod`: POST for a spoofed method, otherwise the method in upper case. */
  function TransformMethod(httpMethod: string): (r: string)
    ensures IsSimulated(Upper(httpMethod)) ==> r == "POST"
    ensures !IsSimulated(Upper(httpMethod)) ==> r == Upper(httpMethod)
    ensures IsUpper(r)
  {
    UpperIsUpper(httpMethod);
    if IsSimulated(Upper(httpMethod)) then "POST" else Upper(httpMethod)
  }

  /** Transforming a transformed method changes nothing. */
  lemma TransformIdempotent(httpMethod: string)
    ensures TransformMethod(TransformMethod(httpMethod)) == TransformMethod(httpMethod)
  {
    UpperIsUpper(httpMethod);
    if !IsSimulated(Upper(httpMethod)) {
      assert Upper(Upper(httpMethod)) == Upper(httpMethod);
    }
  }

  /** The constructed component: the method as given and the method the HTML form uses. */
  datatype FormComponent = FormComponent(httpMethod: string, transformedMethod: string)

  datatype FormError = MethodRequired

  /** The constructor: an empty method (including "0") is rejected. */
  function NewForm(httpMethod: string): (r: Result<FormComponent, FormError>)
    ensures !Truthy(httpMethod) <==> r == Failure(MethodRequired)
    ensures r.Success? ==> r.value.httpMethod == httpMethod && r.value.transformedMethod == TransformMethod(httpMethod)
  {
    if !Truthy(httpMethod) then Failure(MethodRequired)
    else Success(FormComponent(httpMethod, TransformMethod(httpMethod)))
  }

  /** `needsSimulation`: whether the stored method is one that must be spoofed. */
  function NeedsSimulation(f: FormComponent): (b: bool)
    ensures b <==> Upper(f.httpMethod) in {"PUT", "PATCH", "DELETE"}
  {
    IsSimulated(Upper(f.httpMethod))
  }

  /** A component that needs spoofing submits as POST. */
  lemma SimulationMeansPost(httpMethod: string)
    requires NewForm(httpMethod).Success?
    ensures NeedsSimulation(NewForm(httpMethod).value) ==> NewForm(httpMethod).value.transformedMethod == "POST"
    ensures !NeedsSimulation(NewForm(httpMethod).value) ==> NewForm(httpMethod).value.transformedMethod == Upper(httpMethod)
  {
  }
}
