// The kernel's error numbers and an optional value.
module Kernel {

  datatype Option<T> = None | Some(value: T)

  const EINTR := 4
  const EIO := 5
  const ENOMEM := 12
  const EFAULT := 14
  const EINVAL := 22
}
