/**
 * Toast notifications. A call of `toast({ title, description, variant })` is
 * modelled as a record appended to the calling component's output sequence;
 * rendering, queueing and expiry of toasts are not part of this model.
 */
module Toasts {
  /** The optional `variant` of a toast: absent, or "destructive". */
  datatype Variant = Default | Destructive

  datatype Toast = Toast(title: string, description: string, variant: Variant)
}
