/**
 * The nginx return codes the module produces or inspects, with the values
 * nginx gives them (ngx_core.h and ngx_http_request.h; nginx's own headers
 * are not part of this model). `ngx_int_t` is a pointer-sized signed integer
 * that none of the modelled code does arithmetic on, so codes are plain `int`.
 */
module Ngx {

  const NGX_ERROR: int := -1
  const NGX_AGAIN: int := -2
  const NGX_DONE: int := -4
  const NGX_DECLINED: int := -5

  /** Every HTTP status at or above this one is a response code, not a control code. */
  const NGX_HTTP_SPECIAL_RESPONSE: int := 300
  const NGX_HTTP_FORBIDDEN: int := 403
}
