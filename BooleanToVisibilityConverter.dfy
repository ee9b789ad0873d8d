/**
 * BooleanToVisibilityConverter: shows an element for true and collapses it for false.
 * A string converter parameter that bool.Parse reads as true inverts the mapping in
 * both directions.
 */
module BooleanVisibility {
  import opened Wrappers
  import opened Framework
  import opened Xaml

  /** Why a conversion throws. */
  datatype ConversionError =
    | NotABoolean      // ArgumentException: Convert was handed something other than a bool
    | NotAVisibility   // ArgumentException: ConvertBack was handed something other than a Visibility
    | BadParameter     // FormatException from bool.Parse on the parameter string

  /** `parameter is string p && bool.Parse(p)`: only a string parameter is parsed. */
  function Inverts(parameter: Boxed): (r: Result<bool, ConversionError>)
    ensures !parameter.BoxedString? ==> r == Ok(false)
    ensures parameter.BoxedString? ==>
              (r.Err? <==> ParseBool(parameter.s).None?)
              && (r.Ok? ==> r.value == ParseBool(parameter.s).value)
  {
    if parameter.BoxedString? then
      match ParseBool(parameter.s)
      case Some(b) => Ok(b)
      case None => Err(BadParameter)
    else Ok(false)
  }

  /** Convert: the value is checked first, then the parameter is parsed. */
  function Convert(value: Boxed, parameter: Boxed): (r: Result<Visibility, ConversionError>)
    ensures !value.BoxedBool? ==> r == Err(NotABoolean)
    ensures value.BoxedBool? ==> (r.Err? <==> Inverts(parameter).Err?)
    ensures value.BoxedBool? && r.Ok? ==> (r.value == Visible <==> value.b != Inverts(parameter).value)
  {
    if value.BoxedBool? then
      match Inverts(parameter)
      case Ok(invert) =>
        var b := if invert then !value.b else value.b;
        Ok(if b then Visible else Collapsed)
      case Err(e) => Err(e)
    else Err(NotABoolean)
  }

  /** ConvertBack: Visible reads as true and Collapsed as false, unless the parameter inverts. */
  function ConvertBack(value: Boxed, parameter: Boxed): (r: Result<bool, ConversionError>)
    ensures !value.BoxedVisibility? ==> r == Err(NotAVisibility)
    ensures value.BoxedVisibility? ==> (r.Err? <==> Inverts(parameter).Err?)
    ensures value.BoxedVisibility? && r.Ok? ==> (r.value <==> (value.v == Visible) != Inverts(parameter).value)
  {
    if value.BoxedVisibility? then
      match Inverts(parameter)
      case Ok(invert) => Ok(if invert then value.v != Visible else value.v == Visible)
      case Err(e) => Err(e)
    else Err(NotAVisibility)
  }

  /** Without a string parameter, true shows and false collapses. */
  lemma PlainMapping(b: bool, parameter: Boxed)
    requires !parameter.BoxedString?
    ensures Convert(BoxedBool(b), parameter) == Ok(if b then Visible else Collapsed)
    ensures ConvertBack(BoxedVisibility(Visible), parameter) == Ok(true)
    ensures ConvertBack(BoxedVisibility(Collapsed), parameter) == Ok(false)
  {
  }

  /** A parameter that parses as true swaps the two visibilities; one that parses as false changes nothing. */
  lemma ParameterInverts(b: bool, p: string)
    requires ParseBool(p).Some?
    ensures ParseBool(p) == Some(true) ==> Convert(BoxedBool(b), BoxedString(p)) == Convert(BoxedBool(!b), Null)
    ensures ParseBool(p) == Some(false) ==> Convert(BoxedBool(b), BoxedString(p)) == Convert(BoxedBool(b), Null)
  {
  }

  /** Convert then ConvertBack under the same parameter gives back the boolean. */
  lemma ConvertRoundTrip(b: bool, parameter: Boxed)
    requires Convert(BoxedBool(b), parameter).Ok?
    ensures ConvertBack(BoxedVisibility(Convert(BoxedBool(b), parameter).value), parameter) == Ok(b)
  {
  }

  /** ConvertBack then Convert under the same parameter gives back the visibility. */
  lemma ConvertBackRoundTrip(v: Visibility, parameter: Boxed)
    requires ConvertBack(BoxedVisibility(v), parameter).Ok?
    ensures Convert(BoxedBool(ConvertBack(BoxedVisibility(v), parameter).value), parameter) == Ok(v)
  {
  }

  /** A string parameter that is not a boolean literal makes both directions throw. */
  lemma BadParameterThrows(b: bool, v: Visibility, p: string)
    requires ParseBool(p).None?
    ensures Convert(BoxedBool(b), BoxedString(p)) == Err(BadParameter)
    ensures ConvertBack(BoxedVisibility(v), BoxedString(p)) == Err(BadParameter)
  {
  }

  /** The literals the views pass: "True" inverts, "false" does not, "yes" is rejected. */
  lemma ParameterLiterals()
    ensures ParseBool("True") == Some(true)
    ensures ParseBool(" false ") == Some(false)
    ensures ParseBool("yes") == None
  {
    assert TrimWhiteSpaceAndNull("True") == "True";
    assert TrimWhiteSpaceAndNull(" false ") == "false" by {
      assert " false "[1..] == "false ";
      assert "false "[..5] == "false";
    }
    assert TrimWhiteSpaceAndNull("yes") == "yes";
  }
}
