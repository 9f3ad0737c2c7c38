# ngx_dashll: admission filter and body-completion state machine

A Dafny model of the logic of the nginx HTTP module `ngx_dashll_module`.
The module does two things.

- **Access phase.** `ngx_dashll_access_handler` forbids a POST (403)
  unless its Content-Type is exactly `application/json` and it has a
  Content-Length header. Every other method passes untouched, with the
  same DECLINED an admitted POST gets, and is left to other handlers.
- **Content phase.** `ngx_dashll_http_content_handler` attaches a
  per-request context (`ngx_dashll_ctx_t`: the bits `done` and
  `waiting_more_body`) and starts reading the body. If the read cannot
  finish at once (`NGX_AGAIN`), the handler records a suspension and
  returns `NGX_DONE`. The completion callback `ngx_dashll_payload_handler`
  later marks the body done. If a suspension is pending, it clears it and
  resumes the phase loop once.

Files:

- `wrappers.dfy`: `Option`, for absent headers.
- `ngx.dfy`: the nginx return codes with nginx's values (`NGX_DECLINED = -5`,
  `NGX_AGAIN = -2`, `NGX_DONE = -4`, `NGX_ERROR = -1`,
  `NGX_HTTP_SPECIAL_RESPONSE = 300`, `NGX_HTTP_FORBIDDEN = 403`). nginx's own
  headers are not part of this model.
- `admission.dfy`: the request metadata as a datatype and the access filter
  as a pure function. `ngx_strcmp` is C `strcmp`, so it is modelled as a C
  string comparison that stops at the first NUL byte. A lemma shows that for
  NUL-free header values this is plain sequence equality.
- `body_read.dfy`: the context as a class whose fields the two handlers update
  in place, and the request's context slot as a class. Ghost counters track
  recorded suspensions, phase-loop resumptions and issued body reads. Pure
  functions give the same transitions on values, and lemmas use them to
  reason about whole runs: the content handler followed by any number of
  callbacks.

Three facts about the code that the model keeps:

- The filter answers only DECLINED or FORBIDDEN. It never answers an error code.
- The content handler returns NGX_DONE both when the body was read at once and when it is still pending. The two cases share one return code.
- Every read result below NGX_HTTP_SPECIAL_RESPONSE other than NGX_AGAIN is treated like a finished read. That includes NGX_ERROR.

## Model

| member | source | states |
|---|---|---|
| `Admission.AccessHandler` | ngx_dashll_module.c:63-89 | The result is always DECLINED or FORBIDDEN. A non-POST is always DECLINED. A request is DECLINED exactly when it is not a POST, or it has a Content-Type whose C string is `application/json` and it has a Content-Length. |
| `Admission.PostAdmittedIff` | ngx_dashll_module.c:74-88 | For a POST with a NUL-free Content-Type: a missing Content-Type is FORBIDDEN. A value not byte-equal to `application/json` is FORBIDDEN. The exact type without Content-Length is FORBIDDEN. DECLINED holds exactly when the type is exact and a Content-Length is present. |
| `Admission.NonPostIgnoresHeaders` | ngx_dashll_module.c:68-71 | The method is tested before any header. A non-POST request is DECLINED whatever headers it carries. |
| `Admission.StrCmp` | ngx_dashll_module.c:78 | `ngx_strcmp` returns zero exactly when the two C strings are equal. |
| `Admission.CString` | ngx_dashll_module.c:78 | The string `strcmp` sees is a prefix of the stored value and holds no NUL. It ends at the first NUL of the value, or at the value's end if there is none. |
| `Admission.CStringIsIdentity` | ngx_dashll_module.c:78 | A value is its own C string exactly when it holds no NUL. So for such values the comparison is byte equality. |
| `Admission.ParameterForbidden` | ngx_dashll_module.c:78-80 | `application/json; charset=utf-8` is FORBIDDEN. Parameters are not tolerated. |
| `Admission.CaseForbidden` | ngx_dashll_module.c:78-80 | `Application/JSON` is FORBIDDEN. The test is case-sensitive. |
| `Admission.ComparisonStopsAtNul` | ngx_dashll_module.c:78 | A value of `application/json`, then a NUL, then anything at all, is DECLINED. The comparison ends at the NUL. |
| `Admission.CStringStopsAtNul` | ngx_dashll_module.c:78 | The C string of `p + "\0" + tail` is `p` when `p` holds no NUL. |
| `BodyRead.AfterContentPhase` | ngx_dashll_module.c:111-125 | A read result at or above NGX_HTTP_SPECIAL_RESPONSE is returned unchanged. Any lower result gives NGX_DONE. A suspension is recorded exactly when the read answered NGX_AGAIN. The body is never marked done by the handler. |
| `BodyRead.AfterPayload` | ngx_dashll_module.c:51-59 | The callback always leaves `done` set and `waiting_more_body` clear. It resumes the phase loop exactly when `waiting_more_body` was set on entry. |
| `BodyRead.DeliverResumesOnce` | ngx_dashll_module.c:44-60 | After one or more callbacks the context is done with nothing pending. The phase loop was resumed once if a suspension was pending and never otherwise. |
| `BodyRead.ResumeOnlyAfterSuspension` | ngx_dashll_module.c:111-121 | Over the content handler plus any number of callbacks, resumptions never exceed recorded suspensions. A read that did not answer NGX_AGAIN is never resumed. A read that answered NGX_AGAIN is resumed exactly once when a callback arrives, and stays suspended until then. |
| `BodyRead.Context.constructor` | ngx_dashll_module.c:98-105 | A fresh context has `done` and `waiting_more_body` clear and nothing recorded, as `ngx_pcalloc` zeroes it. |
| `BodyRead.RequestSlot.ContentHandler` | ngx_dashll_module.c:93-126 | If allocation fails: NGX_ERROR, the context slot unchanged, no body read issued. Otherwise: a fresh context that keeps the invariant is attached, one body read is issued, and the return code and new flags are those AfterContentPhase gives. The context records one suspension iff the read answered NGX_AGAIN, and no resumption. |
| `BodyRead.RequestSlot.PayloadHandler` | ngx_dashll_module.c:44-60 | Requires an attached context, since the source does no null check. Leaves `done` set and `waiting_more_body` clear. Adds one resumption iff `waiting_more_body` was set on entry. Keeps the context invariant, so afterwards resumptions equal recorded suspensions. |

## Left out

- Module tables and `ngx_dashll_init`, which register the two handlers: host configuration with no behaviour to state.
- All `ngx_log_error` and `ngx_conf_log_error` calls: diagnostics only.
- `ngx_http_read_client_request_body`: nginx I/O. Only its result code is modelled, as an input.
- `ngx_http_core_run_phases`: a re-entry into nginx's phase loop. It is modelled as an increment of the ghost counter `resumes`. What the re-entered phases then do is not modelled.
- `ngx_pcalloc` and pool memory: allocation is a boolean input, and a successful one is a fresh zeroed `Context`.
- `ngx_http_get_module_ctx` and `ngx_http_set_ctx`: these are the `ctx` field of `BodyRead.RequestSlot`.
- The event loop that schedules the callback. The callback is a method call made after the content handler returns. `BodyRead.Deliver` covers any number of deliveries. nginx's own habit of calling the callback from inside `ngx_http_read_client_request_body` when the body is already complete is not modelled.
- NUL bytes in header values: nginx's header parser refuses them before this module runs. That parser is not part of this model. The filter is modelled for every value, and `Admission.PostAdmittedIff` states the NUL-free case.
- `Admission.RequestHeaders`: header values are modelled as `seq<char>` with one `char` per byte. The model does not restrict the values to bytes, because the filter only compares them for equality with an ASCII constant.
