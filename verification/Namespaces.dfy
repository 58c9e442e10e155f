/** The XML namespaces the proxy reads and writes. */
module Namespaces {
  datatype Namespace = NoNamespace | SoapEnv | NsiHeaders | NsiTypes | NsiP2p | OtherNamespace(uri: string)
}
