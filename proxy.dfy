/**
 * The callback name of a request: the generated guid with every `-` replaced
 * by `_` (js/jsonp.js:43), so that it can be used as a property name after
 * "YUI.".
 */
module Proxy {

  /** `guid.replace(/-/g, '_')`. */
  function ReplaceHyphens(guid: string): (proxy: string)
    ensures |proxy| == |guid|
    ensures '-' !in proxy
    ensures forall i :: 0 <= i < |guid| ==> proxy[i] == (if guid[i] == '-' then '_' else guid[i])
  {
    if guid == [] then [] else [if guid[0] == '-' then '_' else guid[0]] + ReplaceHyphens(guid[1..])
  }

  /** A guid without hyphens is its own proxy name. */
  lemma HyphenFreeUnchanged(guid: string)
    requires '-' !in guid
    ensures ReplaceHyphens(guid) == guid
  {
  }
}
