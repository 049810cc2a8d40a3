/** What PProx passes through the queue (server.cpp): a client socket, a backend socket, and whether it is a response. */
module Jobs {
  datatype Socks = Socks(c: int, s: int, r: int)
}
