/** The exceptions the node layer throws, one constructor per distinct
    `throw` site (messages that carry an address keep its string). */
module Errors {

  datatype Error =
    | ConfigError(message: string)      // NodeUtils.validateNodeConfig
    | DuplicateTool(address: string)    // oCoreNode.addTool
    | ToolNotFound(address: string)     // oCoreNode.getTool
    | ConnectionInvalid                 // oConnection.validate
    | ConnectionNotFound                // oCoreNode.connect
    | NoDataReceived                    // oConnection.read on an empty stream
    | MalformedResponse                 // JSON.parse rejecting the bytes read
    | StreamFailed                      // newStream / sink rejected by the transport
    | ManagerMissing                    // connect before start created a manager
    | InvalidNodeState                  // oNode.validate
    | NotImplemented                    // oNode.use / oNode.register
    | HookFailed(reason: string)        // any other error an abstract hook throws
}
