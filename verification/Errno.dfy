/** The error codes the driver returns, as negative integers. */
module Errno {
  const ESRCH := -3
  const EBADF := -9
  const ENOMEM := -12
  const EFAULT := -14
  const EINVAL := -22
  const EMFILE := -24
  const ETIMEDOUT := -110
  const ERESTARTSYS := -512
}
