/**
  The HTTP calls the pages make through `getApi`/`patchApi`/`postApi`, recorded in an outbox.
  The transport, the bearer token and the server are outside the model; a call's answer enters
  the model as a parameter of the event that receives it.
*/
module Http {
  import opened JsText

  datatype Request = Get(path: JsString) | Patch(path: JsString) | Post(path: JsString)
}
