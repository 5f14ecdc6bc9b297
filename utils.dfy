/** `Utils.isNullOrEmpty` for a Java `String`, whose null is `None`. */
module Utils {
  import opened Wrappers

  predicate IsNullOrEmpty(s: Option<string>)
  {
    s == None || s.value == ""
  }
}
