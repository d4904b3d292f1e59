/** The user-visible notices (`toast.info`, `toast.success`, `toast.warning`,
    `toast.error`) that the dashboard's handlers raise. */
module Toasts {

  datatype Level = Info | Success | Warning | Error

  datatype Toast = Toast(level: Level, message: string)
}
