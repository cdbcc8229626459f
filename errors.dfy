/** The program's error type. */
module Errors {
  import opened Probes

  datatype ReconError =
    | Config(message: string)
    | Network(fault: Fault)
    | Dns(reason: string)
    | JsonParse(message: string)
    | Io(message: string)
    | UrlParse(reason: string)
    | CliArgs(message: string)
    | CheckFailed(checkName: string, details: string)
    | NotFound(resourceType: string, target: string)
    | UnexpectedApiResponse(service: string, status: StatusCode, body: string)
    | MissingData(message: string)
    | Other(message: string)
}
