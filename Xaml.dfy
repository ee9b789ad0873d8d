/**
 * The XAML-side values that the two value converters receive and return. A converter
 * is handed its value and its parameter as System.Object; Boxed is that object, with
 * one case per runtime type the converters test for.
 */
module Xaml {
  import opened Framework

  /** Microsoft.UI.Xaml.Visibility, which has exactly these two members. */
  datatype Visibility = Visible | Collapsed

  datatype Boxed =
    | Null
    | BoxedULong(u: ulong)
    | BoxedString(s: string)
    | BoxedBool(b: bool)
    | BoxedVisibility(v: Visibility)
    | BoxedOther
}
