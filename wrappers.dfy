/** Option and Result wrappers, and the kinds of exception the modelled code raises. */
module Wrappers {
  datatype Option<T> = None | Some(value: T)

  /** The Python exception classes that the core raises or lets escape. */
  datatype ErrorKind =
    | TypeError
    | AttributeError
    | ValueError
    | KeyError
    | IndexError
    | SchemaError
    | ProductNotImplemented
    | ProductionProviderException
    | OrderingProviderException
    | OrderException
    | MetricsException
    | OnlineCacheException
    | DbConnectException
    | SceneException
    | SmtpException
    | UnboundLocalError

  datatype Raised = Raised(kind: ErrorKind, message: string)

  datatype Result<T> = Ok(value: T) | Err(error: Raised)
}
